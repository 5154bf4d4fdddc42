/** Safety and deadlock freedom of the start-up handshake. */
module HandshakeProof {
  import opened Config
  import opened Handshake
  import opened Options
  import CtrlServer

  /** Machine m has pushed its i-th key and not yet cleared it. */
  ghost predicate Live(net: Net, pc: seq<nat>, m: nat, i: nat) {
    Index(net, m, i) && m < |pc| && i < pc[m] <= 2 * Pushes(net) + 1 + i
  }

  /** Nobody is beyond a barrier while somebody is before it. */
  ghost predicate Together(pc: seq<nat>, at: int) {
    forall m, n :: 0 <= m < |pc| && 0 <= n < |pc| && pc[m] > at ==> pc[n] > at
  }

  ghost predicate Paced(net: Net, pc: seq<nat>, blocked: seq<bool>) {
    && Together(pc, 2 * Pushes(net))
    && Together(pc, 3 * Pushes(net) + 1)
    && |blocked| == |pc|
    && forall m :: 0 <= m < |pc| && blocked[m] ==>
         Pushes(net) <= pc[m] <= 2 * Pushes(net) || pc[m] == 3 * Pushes(net) + 1
  }

  ghost predicate KeyStored(net: Net, servers: seq<CtrlServer.Server>, pc: seq<nat>, m: nat, i: nat)
    requires Routed(net) && Index(net, m, i) && |servers| == Size(net)
  {
    var k := PushKey(net, m, i);
    var kv := servers[net.route(k)].kv;
    && (k in kv <==> Live(net, pc, m, i))
    && (k in kv ==> kv[k] == PushVal(net, m, i))
  }

  ghost predicate SomebodysKey(net: Net, k: string) {
    exists m: nat, i: nat :: Index(net, m, i) && PushKey(net, m, i) == k
  }

  /** The stores hold exactly the live keys, each on its server with its value. */
  ghost predicate Stored(net: Net, servers: seq<CtrlServer.Server>, pc: seq<nat>)
    requires Routed(net) && |servers| == Size(net)
  {
    && (forall m: nat, i: nat :: Index(net, m, i) ==> KeyStored(net, servers, pc, m, i))
    && (forall j: nat, k :: j < |servers| && k in servers[j].kv ==> net.route(k) == j && SomebodysKey(net, k))
  }

  ghost predicate PullsAt(net: Net, pc: seq<nat>, blocked: seq<bool>, m: nat, k: string) {
    && m < |pc| && m < |blocked| && blocked[m]
    && Pushes(net) <= pc[m] < 2 * Pushes(net)
    && Index(net, m, pc[m] - Pushes(net)) && PullKey(net, m, pc[m] - Pushes(net)) == k
  }

  ghost predicate PendingOk(net: Net, server: CtrlServer.Server, j: nat, pc: seq<nat>, blocked: seq<bool>, k: string)
    requires k in server.pending
  {
    && net.route(k) == j && k !in server.kv
    && |server.pending[k]| == 1
    && PullsAt(net, pc, blocked, server.pending[k][0], k)
  }

  /** Each pending pull is that of one blocked machine, for a key not in the store. */
  ghost predicate Waiters(net: Net, servers: seq<CtrlServer.Server>, pc: seq<nat>, blocked: seq<bool>)
    requires Routed(net) && |servers| == Size(net)
  {
    && (forall j: nat, k :: j < |servers| && k in servers[j].pending ==> PendingOk(net, servers[j], j, pc, blocked, k))
    && (forall m: nat, k :: PullsAt(net, pc, blocked, m, k) ==> k in servers[net.route(k)].pending)
  }

  ghost predicate Gate(s: CtrlServer.Server, name: string, n: nat, at: int, pc: seq<nat>, blocked: seq<bool>)
    requires |pc| == |blocked| == n
  {
    var w := CtrlServer.Waiting(s, name);
    && Distinct(w)
    && (forall i :: 0 <= i < |w| ==> w[i] < n)
    && (forall m: nat :: m < n ==> (m in w <==> blocked[m] && pc[m] == at))
    && |w| < n
    && (name in s.barriers ==> w != [] && s.barriers[name].1 == n)
  }

  ghost predicate Gates(net: Net, servers: seq<CtrlServer.Server>, pc: seq<nat>, blocked: seq<bool>)
    requires |servers| == |pc| == |blocked| == Size(net) >= 1
  {
    && (forall j :: 1 <= j < |servers| ==> servers[j].barriers == map[])
    && servers[0].barriers.Keys <= {FIRST, SECOND}
    && Gate(servers[0], FIRST, Size(net), 2 * Pushes(net), pc, blocked)
    && Gate(servers[0], SECOND, Size(net), 3 * Pushes(net) + 1, pc, blocked)
  }

  /** Every finished pull has returned the value its peer pushed. */
  ghost predicate Received(net: Net, pc: seq<nat>, got: seq<map<string, string>>)
    requires |pc| == |got|
  {
    forall m: nat, i: nat :: m < |pc| && Index(net, m, i) && pc[m] > Pushes(net) + i ==>
      PullKey(net, m, i) in got[m] && got[m][PullKey(net, m, i)] == PullVal(net, m, i)
  }

  ghost predicate Safe(net: Net, s: State) {
    && Shaped(net, s)
    && !s.failed
    && Paced(net, s.pc, s.blocked)
    && Stored(net, s.servers, s.pc)
    && Waiters(net, s.servers, s.pc, s.blocked)
    && Gates(net, s.servers, s.pc, s.blocked)
    && Received(net, s.pc, s.got)
  }

  lemma InitialIsSafe(net: Net, s: State)
    requires InitialState(net, s)
    ensures Safe(net, s)
  {
  }

  // ---------------------------------------------------------------- the shape of a step

  function Bump(pc: seq<nat>, calls: seq<nat>): (r: seq<nat>)
    ensures |r| == |pc| && forall i :: 0 <= i < |pc| ==> r[i] == if i in calls then pc[i] + 1 else pc[i]
  {
    seq(|pc|, i requires 0 <= i < |pc| => if i in calls then pc[i] + 1 else pc[i])
  }

  function Freed(blocked: seq<bool>, m: nat, calls: seq<nat>): (r: seq<bool>)
    ensures |r| == |blocked|
    ensures forall i :: 0 <= i < |blocked| ==> r[i] == if i in calls then false else if i == m then true else blocked[i]
  {
    seq(|blocked|, i requires 0 <= i < |blocked| => if i in calls then false else if i == m then true else blocked[i])
  }

  ghost predicate Answers(sent: seq<CtrlServer.Response>, calls: seq<nat>) {
    forall i: nat :: Find(sent, i).Some? <==> i in calls
  }

  lemma {:induction false} FindAll(calls: seq<nat>, val: Option<string>, i: nat)
    ensures Find(CtrlServer.Answers(calls, val), i).Some? <==> i in calls
    ensures i in calls ==> Find(CtrlServer.Answers(calls, val), i).value.val == val
  {
    if calls != [] {
      FindAll(calls[1..], val, i);
      assert CtrlServer.Answers(calls, val)[1..] == CtrlServer.Answers(calls[1..], val);
    }
  }

  lemma {:induction false} FindConcat(a: seq<CtrlServer.Response>, b: seq<CtrlServer.Response>, i: nat)
    ensures Find(a + b, i) == if Find(a, i).Some? then Find(a, i) else Find(b, i)
  {
    if a == [] {
      assert a + b == b;
    } else {
      FindConcat(a[1..], b, i);
      assert (a + b)[1..] == a[1..] + b;
    }
  }

  lemma StepShape(net: Net, s: State, m: nat, calls: seq<nat>)
    requires Shaped(net, s) && Enabled(net, s, m)
    requires var op := OpAt(net, m, s.pc[m]);
             var o := CtrlServer.Handle(s.servers[ServerOf(net, op)], m, op);
             o.Done? && Answers(o.sent, calls)
    ensures var r := Step(net, s, m);
            var op := OpAt(net, m, s.pc[m]);
            && !r.failed
            && r.servers ==
                 s.servers[ServerOf(net, op) := CtrlServer.Handle(s.servers[ServerOf(net, op)], m, op).server]
            && r.pc == Bump(s.pc, calls)
            && r.blocked == Freed(s.blocked, m, calls)
            && |r.got| == |s.got|
  {
  }

  // ---------------------------------------------------------------- moving within a phase

  /** Positions may change without changing which keys are live. */
  lemma SameStored(net: Net, servers: seq<CtrlServer.Server>, later: seq<CtrlServer.Server>, pc: seq<nat>,
                   next: seq<nat>)
    requires Routed(net) && |servers| == |later| == Size(net) && Stored(net, servers, pc)
    requires forall j :: 0 <= j < |servers| ==> later[j].kv == servers[j].kv
    requires forall m: nat, i: nat :: Index(net, m, i) ==> (Live(net, pc, m, i) <==> Live(net, next, m, i))
    ensures Stored(net, later, next)
  {
    forall m: nat, i: nat | Index(net, m, i)
      ensures KeyStored(net, later, next, m, i)
    {
      assert KeyStored(net, servers, pc, m, i);
    }
  }

  lemma SameGate(s: CtrlServer.Server, t: CtrlServer.Server, name: string, n: nat, at: int,
                 pc: seq<nat>, blocked: seq<bool>, next: seq<nat>, free: seq<bool>)
    requires |pc| == |blocked| == |next| == |free| == n
    requires Gate(s, name, n, at, pc, blocked)
    requires name in t.barriers <==> name in s.barriers
    requires name in s.barriers ==> t.barriers[name] == s.barriers[name]
    requires forall m: nat :: m < n ==> (blocked[m] && pc[m] == at <==> free[m] && next[m] == at)
    ensures Gate(t, name, n, at, next, free)
  {
    assert CtrlServer.Waiting(t, name) == CtrlServer.Waiting(s, name);
  }

  /** Moves of machines that do not wait at a barrier before or after leave the gates alone. */
  lemma SameGates(net: Net, servers: seq<CtrlServer.Server>, later: seq<CtrlServer.Server>,
                  pc: seq<nat>, blocked: seq<bool>, next: seq<nat>, free: seq<bool>)
    requires |servers| == |later| == |pc| == |blocked| == |next| == |free| == Size(net) >= 1
    requires Gates(net, servers, pc, blocked)
    requires forall j :: 0 <= j < |servers| ==> later[j].barriers == servers[j].barriers
    requires forall m: nat :: m < Size(net) ==>
               && (blocked[m] && pc[m] == 2 * Pushes(net) <==> free[m] && next[m] == 2 * Pushes(net))
               && (blocked[m] && pc[m] == 3 * Pushes(net) + 1 <==> free[m] && next[m] == 3 * Pushes(net) + 1)
    ensures Gates(net, later, next, free)
  {
    SameGate(servers[0], later[0], FIRST, Size(net), 2 * Pushes(net), pc, blocked, next, free);
    SameGate(servers[0], later[0], SECOND, Size(net), 3 * Pushes(net) + 1, pc, blocked, next, free);
  }

  // ---------------------------------------------------------------- push

  /** The callers a push answers: the machine waiting for the key, if any, and itself. */
  lemma PushAnswers(net: Net, s: State, m: nat)
    requires Safe(net, s) && Enabled(net, s, m) && s.pc[m] < Pushes(net)
    ensures Index(net, m, s.pc[m])
    ensures var k := PushKey(net, m, s.pc[m]);
            var server := s.servers[net.route(k)];
            var calls := CtrlServer.Pending(server, k) + [m];
            var o := CtrlServer.OnPush(server, m, k, PushVal(net, m, s.pc[m]));
            && k !in server.kv
            && o.Done? && Answers(o.sent, calls)
            && (CtrlServer.Pending(server, k) == []
                || (|CtrlServer.Pending(server, k)| == 1 &&
                     PullsAt(net, s.pc, s.blocked, CtrlServer.Pending(server, k)[0], k)))
  {
    IndexInside(net, m, s.pc[m]);
    var k := PushKey(net, m, s.pc[m]);
    var v := PushVal(net, m, s.pc[m]);
    var server := s.servers[net.route(k)];
    assert KeyStored(net, s.servers, s.pc, m, s.pc[m]);
    var waiting := CtrlServer.Pending(server, k);
    var own := [CtrlServer.Response(m, None)];
    forall i: nat
      ensures Find(CtrlServer.Answers(waiting, Some(v)) + own, i).Some? <==> i in waiting + [m]
    {
      FindAll(waiting, Some(v), i);
      FindConcat(CtrlServer.Answers(waiting, Some(v)), own, i);
    }
  }

  /** Nobody else pushes the key machine m pushes at i. */
  ghost predicate OnlyPusher(net: Net, m: nat, i: nat)
    requires Index(net, m, i)
  {
    forall n: nat, j: nat :: Index(net, n, j) && PushKey(net, n, j) == PushKey(net, m, i) ==> n == m && j == i
  }

  lemma PusherIsOnly(net: Net, m: nat, i: nat)
    requires Valid(net) && Index(net, m, i)
    ensures OnlyPusher(net, m, i)
  {
    forall n: nat, j: nat | Index(net, n, j) && PushKey(net, n, j) == PushKey(net, m, i)
      ensures n == m && j == i
    {
      PushKeysDiffer(net, n, j, m, i);
    }
  }

  /** The ids a push answers, and where they stand. */
  ghost predicate PushMoves(net: Net, pc: seq<nat>, blocked: seq<bool>, m: nat, k: string, calls: seq<nat>) {
    && m < |pc| == |blocked| == Size(net) && !blocked[m]
    && Index(net, m, pc[m]) && PushKey(net, m, pc[m]) == k
    && 1 <= |calls| <= 2 && calls[|calls| - 1] == m
    && (|calls| == 2 ==> PullsAt(net, pc, blocked, calls[0], k))
  }

  lemma PushPaced(net: Net, pc: seq<nat>, blocked: seq<bool>, m: nat, k: string, calls: seq<nat>)
    requires Paced(net, pc, blocked) && PushMoves(net, pc, blocked, m, k, calls)
    ensures Paced(net, Bump(pc, calls), Freed(blocked, m, calls))
  {
    assert forall n :: 0 <= n < |pc| ==> pc[n] <= 2 * Pushes(net);
    assert forall n :: 0 <= n < |pc| ==> Bump(pc, calls)[n] <= 2 * Pushes(net);
  }

  lemma PushLive(net: Net, pc: seq<nat>, blocked: seq<bool>, m: nat, k: string, calls: seq<nat>, n: nat, i: nat)
    requires PushMoves(net, pc, blocked, m, k, calls) && Index(net, n, i)
    ensures Live(net, Bump(pc, calls), n, i) <==> Live(net, pc, n, i) || (n == m && i == pc[m])
  {
  }

  lemma PushStored(net: Net, servers: seq<CtrlServer.Server>, later: seq<CtrlServer.Server>,
                   pc: seq<nat>, blocked: seq<bool>, m: nat, k: string, calls: seq<nat>)
    requires Routed(net) && |servers| == |later| == Size(net) && Stored(net, servers, pc)
    requires PushMoves(net, pc, blocked, m, k, calls) && OnlyPusher(net, m, pc[m])
    requires forall j: nat :: j < |servers| ==>
               later[j].kv == if j == net.route(k) then servers[j].kv[k := PushVal(net, m, pc[m])] else servers[j].kv
    ensures Stored(net, later, Bump(pc, calls))
  {
    forall n: nat, i: nat | Index(net, n, i)
      ensures KeyStored(net, later, Bump(pc, calls), n, i)
    {
      assert KeyStored(net, servers, pc, n, i);
      PushLive(net, pc, blocked, m, k, calls, n, i);
    }
    assert SomebodysKey(net, k);
  }

  lemma PullsAfter(net: Net, pc: seq<nat>, blocked: seq<bool>, m: nat, k: string, calls: seq<nat>, n: nat, x: string)
    requires |pc| == |blocked| && m in calls && m < |pc| && !blocked[m]
    requires forall c :: c in calls && c != m ==> PullsAt(net, pc, blocked, c, k)
    requires forall c: nat :: PullsAt(net, pc, blocked, c, k) ==> c in calls
    ensures PullsAt(net, Bump(pc, calls), Freed(blocked, m, calls), n, x) <==> PullsAt(net, pc, blocked, n, x) && x != k
  {
  }

  /** Answering the machines that wait for a key removes exactly its entry. */
  lemma WaitersAnswered(net: Net, servers: seq<CtrlServer.Server>, t: CtrlServer.Server,
                        pc: seq<nat>, blocked: seq<bool>, m: nat, k: string, calls: seq<nat>)
    requires Routed(net) && |servers| == |pc| == |blocked| == Size(net) && Waiters(net, servers, pc, blocked)
    requires m in calls && m < |pc| && !blocked[m]
    requires forall c :: c in calls && c != m ==> PullsAt(net, pc, blocked, c, k)
    requires forall c: nat :: PullsAt(net, pc, blocked, c, k) ==> c in calls
    requires t.pending == servers[net.route(k)].pending - {k}
    requires t.kv.Keys <= servers[net.route(k)].kv.Keys + {k}
    ensures Waiters(net, servers[net.route(k) := t], Bump(pc, calls), Freed(blocked, m, calls))
  {
    var later := servers[net.route(k) := t];
    var next, free := Bump(pc, calls), Freed(blocked, m, calls);
    forall j: nat, x | j < |later| && x in later[j].pending
      ensures PendingOk(net, later[j], j, next, free, x)
    {
      assert x in servers[j].pending && PendingOk(net, servers[j], j, pc, blocked, x);
      PullsAfter(net, pc, blocked, m, k, calls, servers[j].pending[x][0], x);
    }
    forall n: nat, x | PullsAt(net, next, free, n, x)
      ensures x in later[net.route(x)].pending
    {
      PullsAfter(net, pc, blocked, m, k, calls, n, x);
    }
  }

  /** What an answered pull adds to the values a machine has received. */
  lemma ReceivedGrows(net: Net, pc: seq<nat>, got: seq<map<string, string>>, next: seq<nat>,
                      later: seq<map<string, string>>)
    requires |pc| == |got| == |next| == |later| && Received(net, pc, got)
    requires forall n: nat :: n < |pc| ==>
               || (later[n] == got[n] && (next[n] == pc[n] || pc[n] < Pushes(net) || pc[n] >= 2 * Pushes(net)) &&
                    next[n] <= pc[n] + 1)
               || GotNext(net, pc[n], n, got[n], next[n], later[n])
    ensures Received(net, next, later)
  {
    forall n: nat, i: nat | n < |next| && Index(net, n, i) && next[n] > Pushes(net) + i
      ensures PullKey(net, n, i) in later[n] && later[n][PullKey(net, n, i)] == PullVal(net, n, i)
    {
      if pc[n] > Pushes(net) + i {
        assert PullKey(net, n, i) in got[n] && got[n][PullKey(net, n, i)] == PullVal(net, n, i);
      }
    }
  }

  ghost predicate GotNext(net: Net, pc: nat, n: nat, got: map<string, string>, next: nat, later: map<string, string>) {
    var i := pc - Pushes(net);
    && Pushes(net) <= pc && next == pc + 1
    && Index(net, n, i)
    && later == got[PullKey(net, n, i) := PullVal(net, n, i)]
    && (forall j: nat :: Index(net, n, j) && j != i ==> PullKey(net, n, j) != PullKey(net, n, i))
  }

  lemma GetsNext(net: Net, pc: nat, n: nat, got: map<string, string>, k: string, v: string)
    requires Valid(net) && Pushes(net) <= pc && Index(net, n, pc - Pushes(net))
    requires k == PullKey(net, n, pc - Pushes(net)) && v == PullVal(net, n, pc - Pushes(net))
    ensures GotNext(net, pc, n, got, pc + 1, got[k := v])
  {
    var i := pc - Pushes(net);
    forall j: nat | Index(net, n, j) && j != i
      ensures PullKey(net, n, j) != PullKey(net, n, i)
    {
      PullKeysDiffer(net, n, j, n, i);
    }
  }

  lemma PushGot(net: Net, s: State, m: nat, calls: seq<nat>, n: nat)
    requires Shaped(net, s) && Enabled(net, s, m) && Index(net, m, s.pc[m]) && n < Size(net)
    requires var k := PushKey(net, m, s.pc[m]);
             var server := s.servers[net.route(k)];
             && k !in server.kv && calls == CtrlServer.Pending(server, k) + [m]
             && PushMoves(net, s.pc, s.blocked, m, k, calls)
    ensures var k := PushKey(net, m, s.pc[m]);
            Step(net, s, m).got[n] == if n in calls && n != m then s.got[n][k := PushVal(net, m, s.pc[m])] else s.got[n]
  {
    var k := PushKey(net, m, s.pc[m]);
    var v := PushVal(net, m, s.pc[m]);
    var waiting := CtrlServer.Pending(s.servers[net.route(k)], k);
    var own := [CtrlServer.Response(m, None)];
    FindAll(waiting, Some(v), n);
    FindConcat(CtrlServer.Answers(waiting, Some(v)), own, n);
    if n in waiting {
      assert n == calls[0];
    }
  }

  /** A pulled key has the value its pusher gave it. */
  lemma ValueMatches(net: Net, m: nat, i: nat, n: nat, j: nat)
    requires Valid(net) && Index(net, m, i) && Index(net, n, j) && PushKey(net, m, i) == PullKey(net, n, j)
    ensures PushVal(net, m, i) == PullVal(net, n, j)
  {
    var a, x := PulledKeyIsPushed(net, n, j);
    PushKeysDiffer(net, a, x, m, i);
  }

  lemma PushGotNext(net: Net, s: State, m: nat, calls: seq<nat>, n: nat)
    requires Shaped(net, s) && Enabled(net, s, m) && Index(net, m, s.pc[m]) && n in calls && n != m
    requires var k := PushKey(net, m, s.pc[m]);
             var server := s.servers[net.route(k)];
             && k !in server.kv && calls == CtrlServer.Pending(server, k) + [m]
             && PushMoves(net, s.pc, s.blocked, m, k, calls)
    ensures n < Size(net) && GotNext(net, s.pc[n], n, s.got[n], s.pc[n] + 1, Step(net, s, m).got[n])
  {
    var k := PushKey(net, m, s.pc[m]);
    assert PullsAt(net, s.pc, s.blocked, n, k);
    PushGot(net, s, m, calls, n);
    ValueMatches(net, m, s.pc[m], n, s.pc[n] - Pushes(net));
    GetsNext(net, s.pc[n], n, s.got[n], k, PushVal(net, m, s.pc[m]));
  }

  lemma PushReceived(net: Net, s: State, m: nat, calls: seq<nat>)
    requires Shaped(net, s) && Enabled(net, s, m) && Received(net, s.pc, s.got)
    requires Index(net, m, s.pc[m])
    requires var k := PushKey(net, m, s.pc[m]);
             var server := s.servers[net.route(k)];
             && k !in server.kv && calls == CtrlServer.Pending(server, k) + [m]
             && PushMoves(net, s.pc, s.blocked, m, k, calls)
    requires |Step(net, s, m).got| == |s.got|
    ensures Received(net, Bump(s.pc, calls), Step(net, s, m).got)
  {
    forall n: nat | n < |s.pc|
      ensures n in calls && n != m ==> GotNext(net, s.pc[n], n, s.got[n], s.pc[n] + 1, Step(net, s, m).got[n])
      ensures n !in calls || n == m ==> Step(net, s, m).got[n] == s.got[n]
    {
      if n in calls && n != m {
        PushGotNext(net, s, m, calls, n);
      } else {
        PushGot(net, s, m, calls, n);
      }
    }
    ReceivedGrows(net, s.pc, s.got, Bump(s.pc, calls), Step(net, s, m).got);
  }

  lemma PushWaiters(net: Net, s: State, m: nat, calls: seq<nat>)
    requires Valid(net) && |s.servers| == Size(net) && m < |s.pc| && Index(net, m, s.pc[m])
    requires var k := PushKey(net, m, s.pc[m]);
             var server := s.servers[net.route(k)];
             && k !in server.kv && calls == CtrlServer.Pending(server, k) + [m]
             && PushMoves(net, s.pc, s.blocked, m, k, calls)
    requires Waiters(net, s.servers, s.pc, s.blocked)
    ensures var k := PushKey(net, m, s.pc[m]);
            var o := CtrlServer.OnPush(s.servers[net.route(k)], m, k, PushVal(net, m, s.pc[m]));
            o.Done? && Waiters(net, s.servers[net.route(k) := o.server], Bump(s.pc, calls), Freed(s.blocked, m, calls))
  {
    var k := PushKey(net, m, s.pc[m]);
    var server := s.servers[net.route(k)];
    var o := CtrlServer.OnPush(server, m, k, PushVal(net, m, s.pc[m]));
    forall c: nat | PullsAt(net, s.pc, s.blocked, c, k)
      ensures c in calls
    {
      assert k in server.pending && PendingOk(net, server, net.route(k), s.pc, s.blocked, k);
      OnePuller(net, s.pc, s.blocked, c, server.pending[k][0], k);
    }
    WaitersAnswered(net, s.servers, o.server, s.pc, s.blocked, m, k, calls);
  }

  /** Only one machine can wait for a key. */
  lemma OnePuller(net: Net, pc: seq<nat>, blocked: seq<bool>, m: nat, n: nat, k: string)
    requires Valid(net) && PullsAt(net, pc, blocked, m, k) && PullsAt(net, pc, blocked, n, k)
    ensures m == n
  {
    var i: nat := pc[m] - Pushes(net);
    var j: nat := pc[n] - Pushes(net);
    assert PullKey(net, m, i) == k && PullKey(net, n, j) == k;
    PullKeysDiffer(net, m, i, n, j);
  }

  lemma PushSafe(net: Net, s: State, m: nat)
    requires Safe(net, s) && Enabled(net, s, m) && s.pc[m] < Pushes(net)
    ensures Safe(net, Step(net, s, m))
  {
    PushAnswers(net, s, m);
    var k := PushKey(net, m, s.pc[m]);
    var calls := CtrlServer.Pending(s.servers[net.route(k)], k) + [m];
    StepShape(net, s, m, calls);
    var r := Step(net, s, m);
    PushGates(net, s.servers, r.servers, s.pc, s.blocked, m, k, calls);
    PushStores(net, s, m, k, calls);
    PushReceived(net, s, m, calls);
  }

  lemma PushGates(net: Net, servers: seq<CtrlServer.Server>, later: seq<CtrlServer.Server>,
                  pc: seq<nat>, blocked: seq<bool>, m: nat, k: string, calls: seq<nat>)
    requires |servers| == |later| == |pc| == |blocked| == Size(net) >= 1
    requires Paced(net, pc, blocked) && Gates(net, servers, pc, blocked) && PushMoves(net, pc, blocked, m, k, calls)
    requires forall j :: 0 <= j < |servers| ==> later[j].barriers == servers[j].barriers
    ensures Paced(net, Bump(pc, calls), Freed(blocked, m, calls))
    ensures Gates(net, later, Bump(pc, calls), Freed(blocked, m, calls))
  {
    PushPaced(net, pc, blocked, m, k, calls);
    SameGates(net, servers, later, pc, blocked, Bump(pc, calls), Freed(blocked, m, calls));
  }

  lemma PushStores(net: Net, s: State, m: nat, k: string, calls: seq<nat>)
    requires Valid(net) && |s.servers| == Size(net) && m < |s.pc| && Index(net, m, s.pc[m])
    requires k == PushKey(net, m, s.pc[m]) && k !in s.servers[net.route(k)].kv
    requires calls == CtrlServer.Pending(s.servers[net.route(k)], k) + [m]
    requires PushMoves(net, s.pc, s.blocked, m, k, calls)
    requires Stored(net, s.servers, s.pc) && Waiters(net, s.servers, s.pc, s.blocked)
    ensures var o := CtrlServer.OnPush(s.servers[net.route(k)], m, k, PushVal(net, m, s.pc[m]));
            && o.Done?
            && Stored(net, s.servers[net.route(k) := o.server], Bump(s.pc, calls))
            && Waiters(net, s.servers[net.route(k) := o.server], Bump(s.pc, calls), Freed(s.blocked, m, calls))
  {
    var o := CtrlServer.OnPush(s.servers[net.route(k)], m, k, PushVal(net, m, s.pc[m]));
    PusherIsOnly(net, m, s.pc[m]);
    PushStored(net, s.servers, s.servers[net.route(k) := o.server], s.pc, s.blocked, m, k, calls);
    PushWaiters(net, s, m, calls);
  }

  // ---------------------------------------------------------------- pull

  lemma OneAnswer(r: CtrlServer.Response, i: nat)
    ensures Find([r], i).Some? <==> i in [r.call]
    ensures i == r.call ==> Find([r], i).value == r
  {
  }

  /** A key that is held is not waited for by anybody. */
  lemma HeldHasNoPuller(net: Net, servers: seq<CtrlServer.Server>, pc: seq<nat>, blocked: seq<bool>, k: string)
    requires Routed(net) && |servers| == Size(net) && Waiters(net, servers, pc, blocked)
    requires k in servers[net.route(k)].kv
    ensures k !in servers[net.route(k)].pending
    ensures forall c: nat :: !PullsAt(net, pc, blocked, c, k)
  {
    var server := servers[net.route(k)];
    assert k in server.pending ==> PendingOk(net, server, net.route(k), pc, blocked, k);
  }

  /** The stored value is the one the puller's peer pushed. */
  lemma HeldIsPulled(net: Net, servers: seq<CtrlServer.Server>, pc: seq<nat>, m: nat, i: nat)
    requires Valid(net) && |servers| == Size(net) && Stored(net, servers, pc) && Index(net, m, i)
    requires PullKey(net, m, i) in servers[net.route(PullKey(net, m, i))].kv
    ensures servers[net.route(PullKey(net, m, i))].kv[PullKey(net, m, i)] == PullVal(net, m, i)
  {
    var a, j := PulledKeyIsPushed(net, m, i);
    assert KeyStored(net, servers, pc, a, j);
  }

  lemma MidwayStored(net: Net, servers: seq<CtrlServer.Server>, later: seq<CtrlServer.Server>, pc: seq<nat>, m: nat)
    requires Routed(net) && |servers| == |later| == Size(net) && Stored(net, servers, pc)
    requires m < |pc| && Pushes(net) <= pc[m] <= 2 * Pushes(net)
    requires forall j :: 0 <= j < |servers| ==> later[j].kv == servers[j].kv
    ensures Stored(net, later, Bump(pc, [m]))
  {
    forall n: nat, i: nat | Index(net, n, i)
      ensures Live(net, pc, n, i) <==> Live(net, Bump(pc, [m]), n, i)
    {
    }
    SameStored(net, servers, later, pc, Bump(pc, [m]));
  }

  /** One machine takes one step inside its pull phase. */
  lemma PullPaced(net: Net, pc: seq<nat>, blocked: seq<bool>, m: nat)
    requires Paced(net, pc, blocked) && m < |pc| && Pushes(net) <= pc[m] < 2 * Pushes(net)
    ensures Paced(net, Bump(pc, [m]), Freed(blocked, m, [m]))
    ensures Paced(net, Bump(pc, []), Freed(blocked, m, []))
  {
    assert forall n :: 0 <= n < |pc| ==> pc[n] <= 2 * Pushes(net);
    assert forall n :: 0 <= n < |pc| ==> Bump(pc, [m])[n] <= 2 * Pushes(net);
    assert Bump(pc, []) == pc;
  }

  /** A pull of a held key is answered at once. */
  lemma PullHeldStep(net: Net, s: State, m: nat, k: string)
    requires Shaped(net, s) && Enabled(net, s, m) && Pushes(net) <= s.pc[m] < 2 * Pushes(net)
    requires Index(net, m, s.pc[m] - Pushes(net)) && k == PullKey(net, m, s.pc[m] - Pushes(net))
    requires k in s.servers[net.route(k)].kv
    ensures Step(net, s, m) == State(s.servers, Bump(s.pc, [m]), Freed(s.blocked, m, [m]),
                                     s.got[m := s.got[m][k := s.servers[net.route(k)].kv[k]]], false)
  {
    var r := CtrlServer.Response(m, Some(s.servers[net.route(k)].kv[k]));
    forall i: nat ensures Find([r], i).Some? <==> i in [m] { OneAnswer(r, i); }
    OneAnswer(r, m);
    StepShape(net, s, m, [m]);
    var t := Step(net, s, m);
    assert t.servers == s.servers;
    assert t.got == s.got[m := s.got[m][k := s.servers[net.route(k)].kv[k]]];
  }

  lemma PullHeldWaiters(net: Net, servers: seq<CtrlServer.Server>, pc: seq<nat>, blocked: seq<bool>, m: nat, k: string)
    requires Routed(net) && |servers| == |pc| == |blocked| == Size(net) && Waiters(net, servers, pc, blocked)
    requires m < |pc| && !blocked[m] && k in servers[net.route(k)].kv
    ensures Waiters(net, servers, Bump(pc, [m]), Freed(blocked, m, [m]))
  {
    HeldHasNoPuller(net, servers, pc, blocked, k);
    var server := servers[net.route(k)];
    assert servers[net.route(k) := server] == servers;
    WaitersAnswered(net, servers, server, pc, blocked, m, k, [m]);
  }

  lemma PullHeldReceived(net: Net, servers: seq<CtrlServer.Server>, pc: seq<nat>, got: seq<map<string, string>>,
                        m: nat, k: string)
    requires Valid(net) && |servers| == |pc| == |got| == Size(net) && Stored(net, servers, pc) && Received(net, pc, got)
    requires m < |pc| && Pushes(net) <= pc[m] && Index(net, m, pc[m] - Pushes(net))
    requires k == PullKey(net, m, pc[m] - Pushes(net)) && k in servers[net.route(k)].kv
    ensures Received(net, Bump(pc, [m]), got[m := got[m][k := servers[net.route(k)].kv[k]]])
  {
    var v := servers[net.route(k)].kv[k];
    HeldIsPulled(net, servers, pc, m, pc[m] - Pushes(net));
    GetsNext(net, pc[m], m, got[m], k, v);
    ReceivedGrows(net, pc, got, Bump(pc, [m]), got[m := got[m][k := v]]);
  }

  lemma PullHeldSafe(net: Net, s: State, m: nat, k: string)
    requires Safe(net, s) && Enabled(net, s, m) && Pushes(net) <= s.pc[m] < 2 * Pushes(net)
    requires Index(net, m, s.pc[m] - Pushes(net)) && k == PullKey(net, m, s.pc[m] - Pushes(net))
    requires k in s.servers[net.route(k)].kv
    ensures Safe(net, Step(net, s, m))
  {
    PullHeldStep(net, s, m, k);
    PullPaced(net, s.pc, s.blocked, m);
    MidwayStored(net, s.servers, s.servers, s.pc, m);
    PullHeldWaiters(net, s.servers, s.pc, s.blocked, m, k);
    SameGates(net, s.servers, s.servers, s.pc, s.blocked, Bump(s.pc, [m]), Freed(s.blocked, m, [m]));
    PullHeldReceived(net, s.servers, s.pc, s.got, m, k);
  }

  /** A machine that is not waiting is the only one to pull its key. */
  lemma NotYetPending(net: Net, servers: seq<CtrlServer.Server>, pc: seq<nat>, blocked: seq<bool>, m: nat, k: string)
    requires Valid(net) && |servers| == |pc| == |blocked| == Size(net) && Waiters(net, servers, pc, blocked)
    requires m < |pc| && !blocked[m] && Pushes(net) <= pc[m] && Index(net, m, pc[m] - Pushes(net))
    requires k == PullKey(net, m, pc[m] - Pushes(net))
    ensures k !in servers[net.route(k)].pending
  {
    var server := servers[net.route(k)];
    assert k in server.pending ==> PendingOk(net, server, net.route(k), pc, blocked, k);
    forall n: nat
      ensures PullsAt(net, pc, blocked, n, k) ==> n == m
    {
      SameKeySamePuller(net, pc, blocked, m, n, k);
    }
  }

  lemma SameKeySamePuller(net: Net, pc: seq<nat>, blocked: seq<bool>, m: nat, n: nat, k: string)
    requires Valid(net) && m < |pc| && Pushes(net) <= pc[m] && Index(net, m, pc[m] - Pushes(net))
    requires k == PullKey(net, m, pc[m] - Pushes(net))
    ensures PullsAt(net, pc, blocked, n, k) ==> n == m
  {
    if PullsAt(net, pc, blocked, n, k) {
      PullKeysDiffer(net, m, pc[m] - Pushes(net), n, pc[n] - Pushes(net));
    }
  }

  /** A pull that has to wait. */
  lemma PullWaitsStep(net: Net, s: State, m: nat, k: string)
    requires Shaped(net, s) && Enabled(net, s, m) && Pushes(net) <= s.pc[m] < 2 * Pushes(net)
    requires Index(net, m, s.pc[m] - Pushes(net)) && k == PullKey(net, m, s.pc[m] - Pushes(net))
    requires k !in s.servers[net.route(k)].kv && k !in s.servers[net.route(k)].pending
    ensures var server := s.servers[net.route(k)];
            Step(net, s, m) == State(s.servers[net.route(k) := server.(pending := server.pending[k := [m]])],
                                     s.pc, s.blocked[m := true], s.got, false)
  {
    StepShape(net, s, m, []);
    var r := Step(net, s, m);
    assert CtrlServer.Pending(s.servers[net.route(k)], k) + [m] == [m];
    assert r.pc == s.pc;
    assert r.blocked == s.blocked[m := true];
    assert r.got == s.got;
  }

  lemma PullWaiters(net: Net, servers: seq<CtrlServer.Server>, pc: seq<nat>, blocked: seq<bool>, m: nat, k: string)
    requires Routed(net) && |servers| == |pc| == |blocked| == Size(net) && Waiters(net, servers, pc, blocked)
    requires m < |pc| && !blocked[m] && PullsAt(net, pc, blocked[m := true], m, k)
    requires k !in servers[net.route(k)].kv && k !in servers[net.route(k)].pending
    ensures var server := servers[net.route(k)];
            Waiters(net, servers[net.route(k) := server.(pending := server.pending[k := [m]])], pc, blocked[m := true])
  {
    var server := servers[net.route(k)];
    var later := servers[net.route(k) := server.(pending := server.pending[k := [m]])];
    var free := blocked[m := true];
    forall n: nat, x: string
      ensures PullsAt(net, pc, free, n, x) <==> PullsAt(net, pc, blocked, n, x) || (n == m && x == k)
    {
    }
    forall j: nat, x | j < |later| && x in later[j].pending
      ensures PendingOk(net, later[j], j, pc, free, x)
    {
      if x in servers[j].pending {
        assert PendingOk(net, servers[j], j, pc, blocked, x);
      }
    }
  }

  lemma PullWaitsPaced(net: Net, pc: seq<nat>, blocked: seq<bool>, m: nat)
    requires Paced(net, pc, blocked) && m < |pc| && Pushes(net) <= pc[m] < 2 * Pushes(net)
    ensures Paced(net, pc, blocked[m := true])
  {
  }

  lemma PullWaitsGates(net: Net, servers: seq<CtrlServer.Server>, later: seq<CtrlServer.Server>,
                       pc: seq<nat>, blocked: seq<bool>, m: nat)
    requires |servers| == |later| == |pc| == |blocked| == Size(net) >= 1 && Gates(net, servers, pc, blocked)
    requires forall j :: 0 <= j < |servers| ==> later[j].barriers == servers[j].barriers && later[j].kv == servers[j].kv
    requires m < |pc| && Pushes(net) <= pc[m] < 2 * Pushes(net)
    requires Routed(net) && Stored(net, servers, pc)
    ensures Gates(net, later, pc, blocked[m := true]) && Stored(net, later, pc)
  {
    SameStored(net, servers, later, pc, pc);
    SameGates(net, servers, later, pc, blocked, pc, blocked[m := true]);
  }

  lemma PullWaitsSafe(net: Net, s: State, m: nat, k: string)
    requires Safe(net, s) && Enabled(net, s, m) && Pushes(net) <= s.pc[m] < 2 * Pushes(net)
    requires Index(net, m, s.pc[m] - Pushes(net)) && k == PullKey(net, m, s.pc[m] - Pushes(net))
    requires k !in s.servers[net.route(k)].kv && k !in s.servers[net.route(k)].pending
    ensures Safe(net, Step(net, s, m))
  {
    PullWaitsStep(net, s, m, k);
    PullWaitsPaced(net, s.pc, s.blocked, m);
    PullWaiters(net, s.servers, s.pc, s.blocked, m, k);
    PullWaitsGates(net, s.servers, Step(net, s, m).servers, s.pc, s.blocked, m);
  }

  lemma PullSafe(net: Net, s: State, m: nat)
    requires Safe(net, s) && Enabled(net, s, m) && Pushes(net) <= s.pc[m] < 2 * Pushes(net)
    ensures Safe(net, Step(net, s, m))
  {
    var i: nat := s.pc[m] - Pushes(net);
    IndexInside(net, m, i);
    var k := PullKey(net, m, i);
    if k in s.servers[net.route(k)].kv {
      PullHeldSafe(net, s, m, k);
    } else {
      NotYetPending(net, s.servers, s.pc, s.blocked, m, k);
      PullWaitsSafe(net, s, m, k);
    }
  }

  // ---------------------------------------------------------------- clear

  /** Beyond the first barrier nobody waits for a key. */
  lemma NobodyPulls(net: Net, pc: seq<nat>, blocked: seq<bool>, m: nat)
    requires Paced(net, pc, blocked) && m < |pc| && pc[m] > 2 * Pushes(net)
    ensures forall n: nat, k :: !PullsAt(net, pc, blocked, n, k)
  {
  }

  lemma ClearStored(net: Net, servers: seq<CtrlServer.Server>, pc: seq<nat>, m: nat, i: nat)
    requires Routed(net) && |servers| == Size(net) && Stored(net, servers, pc)
    requires Index(net, m, i) && m < |pc| && pc[m] == 2 * Pushes(net) + 1 + i && OnlyPusher(net, m, i)
    ensures var k := PushKey(net, m, i);
            var server := servers[net.route(k)];
            && k in server.kv
            && Stored(net, servers[net.route(k) := server.(kv := server.kv - {k})], Bump(pc, [m]))
  {
    var k := PushKey(net, m, i);
    var server := servers[net.route(k)];
    var later := servers[net.route(k) := server.(kv := server.kv - {k})];
    assert KeyStored(net, servers, pc, m, i);
    forall n: nat, j: nat | Index(net, n, j)
      ensures KeyStored(net, later, Bump(pc, [m]), n, j)
    {
      assert KeyStored(net, servers, pc, n, j);
      assert Live(net, Bump(pc, [m]), n, j) <==> Live(net, pc, n, j) && !(n == m && j == i);
    }
  }

  lemma ClearWaiters(net: Net, servers: seq<CtrlServer.Server>, pc: seq<nat>, blocked: seq<bool>, m: nat, k: string)
    requires Routed(net) && |servers| == |pc| == |blocked| == Size(net) && Waiters(net, servers, pc, blocked)
    requires Paced(net, pc, blocked) && m < |pc| && pc[m] > 2 * Pushes(net)
    ensures forall j: nat :: j < |servers| ==> servers[j].pending == map[]
    ensures Waiters(net, servers[net.route(k) := servers[net.route(k)].(kv := servers[net.route(k)].kv - {k})],
                    Bump(pc, [m]), Freed(blocked, m, [m]))
  {
    NobodyPulls(net, pc, blocked, m);
    forall j: nat | j < |servers|
      ensures servers[j].pending == map[]
    {
      assert forall x :: x in servers[j].pending ==> PendingOk(net, servers[j], j, pc, blocked, x);
    }
    forall n: nat, x: string ensures !PullsAt(net, Bump(pc, [m]), Freed(blocked, m, [m]), n, x) {
    }
  }

  lemma ClearPaced(net: Net, pc: seq<nat>, blocked: seq<bool>, m: nat)
    requires Paced(net, pc, blocked) && m < |pc| && 2 * Pushes(net) < pc[m] <= 3 * Pushes(net)
    ensures Paced(net, Bump(pc, [m]), Freed(blocked, m, [m]))
  {
    assert forall n :: 0 <= n < |pc| ==> 2 * Pushes(net) < pc[n] <= 3 * Pushes(net) + 1;
    assert forall n :: 0 <= n < |pc| ==> 2 * Pushes(net) < Bump(pc, [m])[n] <= 3 * Pushes(net) + 1;
  }

  lemma ClearSafe(net: Net, s: State, m: nat)
    requires Safe(net, s) && Enabled(net, s, m) && 2 * Pushes(net) < s.pc[m] <= 3 * Pushes(net)
    ensures Safe(net, Step(net, s, m))
  {
    var i: nat := s.pc[m] - 2 * Pushes(net) - 1;
    IndexInside(net, m, i);
    var k := PushKey(net, m, i);
    PusherIsOnly(net, m, i);
    ClearStored(net, s.servers, s.pc, m, i);
    ClearWaiters(net, s.servers, s.pc, s.blocked, m, k);
    ClearStep(net, s, m, i, k);
    ClearGates(net, s.servers, Step(net, s, m).servers, s.pc, s.blocked, m);
    ReceivedGrows(net, s.pc, s.got, Bump(s.pc, [m]), s.got);
  }

  lemma ClearStep(net: Net, s: State, m: nat, i: nat, k: string)
    requires Shaped(net, s) && Enabled(net, s, m) && s.pc[m] == 2 * Pushes(net) + 1 + i
    requires Index(net, m, i) && k == PushKey(net, m, i)
    requires k in s.servers[net.route(k)].kv && k !in s.servers[net.route(k)].pending
    ensures var server := s.servers[net.route(k)];
            Step(net, s, m) == State(s.servers[net.route(k) := server.(kv := server.kv - {k})],
                                     Bump(s.pc, [m]), Freed(s.blocked, m, [m]), s.got, false)
  {
    forall x: nat ensures Find([CtrlServer.Response(m, None)], x).Some? <==> x in [m] {
      OneAnswer(CtrlServer.Response(m, None), x);
    }
    StepShape(net, s, m, [m]);
    assert Step(net, s, m).got == s.got;
  }

  lemma ClearGates(net: Net, servers: seq<CtrlServer.Server>, later: seq<CtrlServer.Server>,
                   pc: seq<nat>, blocked: seq<bool>, m: nat)
    requires |servers| == |later| == |pc| == |blocked| == Size(net) >= 1
    requires Paced(net, pc, blocked) && Gates(net, servers, pc, blocked)
    requires m < |pc| && !blocked[m] && 2 * Pushes(net) < pc[m] <= 3 * Pushes(net)
    requires forall j :: 0 <= j < |servers| ==> later[j].barriers == servers[j].barriers
    ensures Paced(net, Bump(pc, [m]), Freed(blocked, m, [m]))
    ensures Gates(net, later, Bump(pc, [m]), Freed(blocked, m, [m]))
  {
    ClearPaced(net, pc, blocked, m);
    SameGates(net, servers, later, pc, blocked, Bump(pc, [m]), Freed(blocked, m, [m]));
  }

  // ---------------------------------------------------------------- barriers

  ghost predicate IsGate(net: Net, name: string, at: int) {
    (name == FIRST && at == 2 * Pushes(net)) || (name == SECOND && at == 3 * Pushes(net) + 1)
  }

  /** The callers of a barrier when machine m arrives. */
  lemma GateCalls(s: CtrlServer.Server, name: string, n: nat, at: int, pc: seq<nat>, blocked: seq<bool>, m: nat)
    requires |pc| == |blocked| == n && Gate(s, name, n, at, pc, blocked)
    requires m < n && !blocked[m] && pc[m] == at
    ensures var calls := CtrlServer.Waiting(s, name) + [m];
            && Distinct(calls)
            && (forall x: nat :: x in calls ==> x < n && pc[x] == at)
            && |calls| <= n
            && (|calls| == n ==> forall x: nat :: x < n ==> x in calls)
  {
    var w := CtrlServer.Waiting(s, name);
    var calls := w + [m];
    assert m !in w;
    AllPresent(calls, n);
  }

  /** A machine that is not the last to arrive joins the callers. */
  lemma BarrierWaitsStep(net: Net, s: State, m: nat, name: string)
    requires Shaped(net, s) && Enabled(net, s, m) && IsGate(net, name, s.pc[m])
    requires |s.servers| > 0
    requires name in s.servers[0].barriers ==> s.servers[0].barriers[name].1 == Size(net)
    requires |CtrlServer.Waiting(s.servers[0], name)| + 1 != Size(net)
    ensures var server := s.servers[0];
            var calls := CtrlServer.Waiting(server, name) + [m];
            Step(net, s, m) == State(s.servers[0 := server.(barriers := server.barriers[name := (calls, Size(net))])],
                                     s.pc, s.blocked[m := true], s.got, false)
  {
    StepShape(net, s, m, []);
    var r := Step(net, s, m);
    assert r.pc == s.pc;
    assert r.blocked == s.blocked[m := true];
    assert r.got == s.got;
  }

  lemma GateWaits(s: CtrlServer.Server, name: string, n: nat, at: int, pc: seq<nat>, blocked: seq<bool>, m: nat)
    requires |pc| == |blocked| == n && Gate(s, name, n, at, pc, blocked)
    requires m < n && !blocked[m] && pc[m] == at
    requires |CtrlServer.Waiting(s, name)| + 1 != n
    ensures Gate(s.(barriers := s.barriers[name := (CtrlServer.Waiting(s, name) + [m], n)]), name, n, at, pc,
                 blocked[m := true])
  {
    GateCalls(s, name, n, at, pc, blocked, m);
    var calls := CtrlServer.Waiting(s, name) + [m];
    assert calls[|calls| - 1] == m;
    forall x: nat | x < n
      ensures x in calls <==> blocked[m := true][x] && pc[x] == at
    {
      assert x in calls <==> x in CtrlServer.Waiting(s, name) || x == m;
    }
  }

  lemma GatesWait(net: Net, servers: seq<CtrlServer.Server>, pc: seq<nat>, blocked: seq<bool>, m: nat, name: string)
    requires |servers| == |pc| == |blocked| == Size(net) >= 1 && Gates(net, servers, pc, blocked)
    requires m < |pc| && !blocked[m] && IsGate(net, name, pc[m])
    requires |CtrlServer.Waiting(servers[0], name)| + 1 != Size(net)
    ensures var calls := CtrlServer.Waiting(servers[0], name) + [m];
            Gates(net, servers[0 := servers[0].(barriers := servers[0].barriers[name := (calls, Size(net))])],
                  pc, blocked[m := true])
  {
    var n := Size(net);
    var t := servers[0].(barriers := servers[0].barriers[name := (CtrlServer.Waiting(servers[0], name) + [m], n)]);
    GateWaits(servers[0], name, n, pc[m], pc, blocked, m);
    if name == FIRST {
      SameGate(servers[0], t, SECOND, n, 3 * Pushes(net) + 1, pc, blocked, pc, blocked[m := true]);
    } else {
      SameGate(servers[0], t, FIRST, n, 2 * Pushes(net), pc, blocked, pc, blocked[m := true]);
    }
  }

  lemma SameWaiters(net: Net, servers: seq<CtrlServer.Server>, later: seq<CtrlServer.Server>,
                    pc: seq<nat>, blocked: seq<bool>, next: seq<nat>, free: seq<bool>)
    requires Routed(net) && |servers| == |later| == Size(net) && Waiters(net, servers, pc, blocked)
    requires forall j :: 0 <= j < |servers| ==> later[j].kv == servers[j].kv && later[j].pending == servers[j].pending
    requires forall n: nat, k :: PullsAt(net, next, free, n, k) <==> PullsAt(net, pc, blocked, n, k)
    ensures Waiters(net, later, next, free)
  {
    forall j: nat, x | j < |later| && x in later[j].pending
      ensures PendingOk(net, later[j], j, next, free, x)
    {
      assert PendingOk(net, servers[j], j, pc, blocked, x);
    }
  }

  lemma BarrierWaitsRest(net: Net, servers: seq<CtrlServer.Server>, later: seq<CtrlServer.Server>,
                         pc: seq<nat>, blocked: seq<bool>, m: nat, name: string)
    requires Routed(net) && |servers| == |later| == |pc| == |blocked| == Size(net) >= 1
    requires m < |pc| && IsGate(net, name, pc[m])
    requires forall j :: 0 <= j < |servers| ==> later[j].kv == servers[j].kv && later[j].pending == servers[j].pending
    requires Stored(net, servers, pc) && Waiters(net, servers, pc, blocked) && Paced(net, pc, blocked)
    ensures Stored(net, later, pc) && Waiters(net, later, pc, blocked[m := true]) && Paced(net, pc, blocked[m := true])
  {
    SameStored(net, servers, later, pc, pc);
    SameWaiters(net, servers, later, pc, blocked, pc, blocked[m := true]);
  }

  lemma BarrierWaitsSafe(net: Net, s: State, m: nat, name: string)
    requires Safe(net, s) && Enabled(net, s, m) && IsGate(net, name, s.pc[m])
    requires |CtrlServer.Waiting(s.servers[0], name)| + 1 != Size(net)
    ensures Safe(net, Step(net, s, m))
  {
    BarrierWaitsStep(net, s, m, name);
    GatesWait(net, s.servers, s.pc, s.blocked, m, name);
    BarrierWaitsRest(net, s.servers, Step(net, s, m).servers, s.pc, s.blocked, m, name);
  }

  /** The last machine to arrive releases all of them. */
  lemma BarrierOpensStep(net: Net, s: State, m: nat, name: string)
    requires Shaped(net, s) && Enabled(net, s, m) && IsGate(net, name, s.pc[m])
    requires |s.servers| > 0
    requires name in s.servers[0].barriers ==> s.servers[0].barriers[name].1 == Size(net)
    requires |CtrlServer.Waiting(s.servers[0], name)| + 1 == Size(net)
    requires forall x: nat :: x < Size(net) ==> x in CtrlServer.Waiting(s.servers[0], name) + [m] && s.pc[x] == s.pc[m]
    ensures var server := s.servers[0];
            var r := Step(net, s, m);
            && r.servers == s.servers[0 := server.(barriers := server.barriers - {name})]
            && |r.pc| == |r.blocked| == Size(net) && r.got == s.got && !r.failed
            && forall x :: 0 <= x < Size(net) ==> r.pc[x] == s.pc[x] + 1 && !r.blocked[x]
  {
    var calls := CtrlServer.Waiting(s.servers[0], name) + [m];
    forall x: nat ensures Find(CtrlServer.Answers(calls, None), x).Some? <==> x in calls {
      FindAll(calls, None, x);
    }
    StepShape(net, s, m, calls);
    var r := Step(net, s, m);
    assert r.got == s.got;
  }

  lemma SomethingIn(w: seq<nat>)
    ensures w == [] || exists x: nat :: x in w
  {
    assert w == [] || w[0] in w;
  }

  lemma GatesOpen(net: Net, servers: seq<CtrlServer.Server>, pc: seq<nat>, blocked: seq<bool>, name: string, at: int,
                  next: seq<nat>, free: seq<bool>)
    requires |servers| == |pc| == |blocked| == |next| == |free| == Size(net) >= 1 && Gates(net, servers, pc, blocked)
    requires IsGate(net, name, at) && (forall x :: 0 <= x < |pc| ==> pc[x] == at && !free[x])
    ensures servers[0].barriers - {name} == map[]
    ensures Gates(net, servers[0 := servers[0].(barriers := servers[0].barriers - {name})], next, free)
  {
    var other := if name == FIRST then SECOND else FIRST;
    var there := if name == FIRST then 3 * Pushes(net) + 1 else 2 * Pushes(net);
    assert Gate(servers[0], other, Size(net), there, pc, blocked);
    var w := CtrlServer.Waiting(servers[0], other);
    SomethingIn(w);
    assert w == [];
  }

  lemma BarrierOpensRest(net: Net, servers: seq<CtrlServer.Server>, later: seq<CtrlServer.Server>, pc: seq<nat>,
                        blocked: seq<bool>,
                         name: string, at: int, next: seq<nat>, free: seq<bool>)
    requires Routed(net) && |servers| == |later| == |pc| == |blocked| == |next| == |free| == Size(net) >= 1
    requires IsGate(net, name, at) && (forall x :: 0 <= x < |pc| ==> pc[x] == at && next[x] == at + 1 && !free[x])
    requires forall j :: 0 <= j < |servers| ==> later[j].kv == servers[j].kv && later[j].pending == servers[j].pending
    requires Stored(net, servers, pc) && Waiters(net, servers, pc, blocked)
    ensures Stored(net, later, next) && Waiters(net, later, next, free) && Paced(net, next, free)
  {
    SameStored(net, servers, later, pc, next);
    SameWaiters(net, servers, later, pc, blocked, next, free);
  }

  lemma BarrierOpensSafe(net: Net, s: State, m: nat, name: string)
    requires Safe(net, s) && Enabled(net, s, m) && IsGate(net, name, s.pc[m])
    requires |CtrlServer.Waiting(s.servers[0], name)| + 1 == Size(net)
    requires forall x: nat :: x < Size(net) ==> x in CtrlServer.Waiting(s.servers[0], name) + [m] && s.pc[x] == s.pc[m]
    ensures Safe(net, Step(net, s, m))
  {
    BarrierOpensStep(net, s, m, name);
    var r := Step(net, s, m);
    GatesOpen(net, s.servers, s.pc, s.blocked, name, s.pc[m], r.pc, r.blocked);
    BarrierOpensRest(net, s.servers, r.servers, s.pc, s.blocked, name, s.pc[m], r.pc, r.blocked);
    ReceivedGrows(net, s.pc, s.got, r.pc, r.got);
  }

  lemma BarrierSafe(net: Net, s: State, m: nat, name: string)
    requires Safe(net, s) && Enabled(net, s, m) && IsGate(net, name, s.pc[m])
    ensures Safe(net, Step(net, s, m))
  {
    GateCalls(s.servers[0], name, Size(net), s.pc[m], s.pc, s.blocked, m);
    if |CtrlServer.Waiting(s.servers[0], name)| + 1 == Size(net) {
      BarrierOpensSafe(net, s, m, name);
    } else {
      BarrierWaitsSafe(net, s, m, name);
    }
  }
}
