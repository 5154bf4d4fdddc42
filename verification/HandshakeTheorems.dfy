/** What holds in every run of the start-up handshake, for any number of machines. */
module HandshakeTheorems {
  import opened Config
  import opened Handshake
  import opened HandshakeProof
  import CtrlServer

  lemma StepIsSafe(net: Net, s: State, m: nat)
    requires Safe(net, s) && Enabled(net, s, m)
    ensures Safe(net, Step(net, s, m))
  {
    var p, at := Pushes(net), s.pc[m];
    if at < p {
      PushSafe(net, s, m);
    } else if at < 2 * p {
      PullSafe(net, s, m);
    } else if at == 2 * p {
      BarrierSafe(net, s, m, FIRST);
    } else if at <= 3 * p {
      ClearSafe(net, s, m);
    } else {
      BarrierSafe(net, s, m, SECOND);
    }
  }

  /** No CHECK of any server fails in any run, and the invariant holds throughout. */
  lemma {:induction false} RunIsSafe(net: Net, states: seq<State>, movers: seq<nat>, i: nat)
    requires IsRun(net, states, movers) && i < |states|
    ensures Safe(net, states[i]) && !states[i].failed
  {
    if i == 0 {
      InitialIsSafe(net, states[0]);
    } else {
      RunIsSafe(net, states, movers, i - 1);
      StepIsSafe(net, states[i - 1], movers[i - 1]);
    }
  }

  /** Every pull that has returned has brought the value the peer pushed under that key. */
  lemma PullsReturnPushedValues(net: Net, states: seq<State>, movers: seq<nat>, at: nat, m: nat, i: nat)
    requires IsRun(net, states, movers) && at < |states| && m < Size(net) && i < Pushes(net)
    requires |states[at].pc| == Size(net) && states[at].pc[m] > Pushes(net) + i
    ensures var s := states[at];
            && Index(net, m, i) && |s.got| == Size(net)
            && PullKey(net, m, i) in s.got[m]
            && s.got[m][PullKey(net, m, i)] == net.val(KindOf(i), net.peers[m][i / 2], m)
  {
    RunIsSafe(net, states, movers, at);
    IndexInside(net, m, i);
  }

  /** While one machine still pulls, nobody clears; while one machine still clears,
      nobody leaves the handshake. */
  lemma BarriersSeparate(net: Net, states: seq<State>, movers: seq<nat>, at: nat, m: nat, n: nat)
    requires IsRun(net, states, movers) && at < |states| && m < Size(net) && n < Size(net)
    ensures var s := states[at];
            && |s.pc| == Size(net)
            && (s.pc[m] < 2 * Pushes(net) ==> s.pc[n] <= 2 * Pushes(net))
            && (s.pc[m] <= 3 * Pushes(net) ==> s.pc[n] < Last(net))
  {
    RunIsSafe(net, states, movers, at);
  }

  lemma NothingStored(net: Net, servers: seq<CtrlServer.Server>, pc: seq<nat>, j: nat)
    requires Routed(net) && |servers| == |pc| == Size(net) && Stored(net, servers, pc) && j < |servers|
    requires forall x :: 0 <= x < |pc| ==> pc[x] > 3 * Pushes(net)
    ensures servers[j].kv == map[]
  {
    forall m: nat, i: nat | Index(net, m, i)
      ensures PushKey(net, m, i) !in servers[net.route(PushKey(net, m, i))].kv
    {
      assert KeyStored(net, servers, pc, m, i);
    }
    assert forall k :: k in servers[j].kv ==> SomebodysKey(net, k) && net.route(k) == j;
  }

  lemma NobodyAtGate(s: CtrlServer.Server, name: string, n: nat, at: int, pc: seq<nat>, blocked: seq<bool>)
    requires |pc| == |blocked| == n && Gate(s, name, n, at, pc, blocked)
    requires forall x :: 0 <= x < n ==> pc[x] > at
    ensures name !in s.barriers
  {
    SomethingIn(CtrlServer.Waiting(s, name));
  }

  lemma NothingPending(net: Net, servers: seq<CtrlServer.Server>, pc: seq<nat>, blocked: seq<bool>, j: nat)
    requires Routed(net) && |servers| == |pc| == Size(net) && Waiters(net, servers, pc, blocked) && j < |servers|
    requires forall x :: 0 <= x < |pc| ==> pc[x] > 2 * Pushes(net)
    ensures servers[j].pending == map[]
  {
    assert forall k :: k in servers[j].pending ==> PendingOk(net, servers[j], j, pc, blocked, k);
  }

  /** As soon as one machine has left the second barrier, all have, and every server is
      as empty as it was before the start. */
  lemma StoresEndEmpty(net: Net, states: seq<State>, movers: seq<nat>, at: nat, m: nat, j: nat)
    requires IsRun(net, states, movers) && at < |states| && m < Size(net) && j < Size(net)
    requires |states[at].pc| == Size(net) && states[at].pc[m] == Last(net)
    ensures |states[at].servers| == Size(net) && states[at].servers[j] == CtrlServer.EMPTY
    ensures forall n :: 0 <= n < Size(net) ==> states[at].pc[n] == Last(net)
  {
    RunIsSafe(net, states, movers, at);
    var s := states[at];
    EmptyAfter(net, s, m, j);
  }

  lemma EmptyAfter(net: Net, s: State, m: nat, j: nat)
    requires Safe(net, s) && m < Size(net) && j < Size(net) && s.pc[m] == Last(net)
    ensures s.servers[j] == CtrlServer.EMPTY
    ensures forall n :: 0 <= n < Size(net) ==> s.pc[n] == Last(net)
  {
    assert forall n :: 0 <= n < Size(net) ==> s.pc[n] > 3 * Pushes(net) + 1;
    NothingStored(net, s.servers, s.pc, j);
    NothingPending(net, s.servers, s.pc, s.blocked, j);
    if j == 0 {
      NobodyAtGate(s.servers[0], FIRST, Size(net), 2 * Pushes(net), s.pc, s.blocked);
      NobodyAtGate(s.servers[0], SECOND, Size(net), 3 * Pushes(net) + 1, s.pc, s.blocked);
      assert s.servers[0].barriers == map[];
    }
  }

  // ---------------------------------------------------------------- deadlock freedom

  /** A machine that waits for a key has a peer that has yet to push it. */
  lemma PusherCanMove(net: Net, s: State, m: nat) returns (a: nat)
    requires Valid(net) && |s.servers| == |s.pc| == |s.blocked| == Size(net) && !s.failed
    requires Paced(net, s.pc, s.blocked) && Stored(net, s.servers, s.pc) && Waiters(net, s.servers, s.pc, s.blocked)
    requires m < Size(net) && s.blocked[m] && Pushes(net) <= s.pc[m] < 2 * Pushes(net)
    ensures Enabled(net, s, a)
  {
    var i: nat := s.pc[m] - Pushes(net);
    IndexInside(net, m, i);
    var k := PullKey(net, m, i);
    assert PullsAt(net, s.pc, s.blocked, m, k);
    var j := net.route(k);
    assert PendingOk(net, s.servers[j], j, s.pc, s.blocked, k);
    var x: nat;
    a, x := PulledKeyIsPushed(net, m, i);
    assert KeyStored(net, s.servers, s.pc, a, x);
  }

  /** A barrier cannot hold everybody. */
  lemma GateHasRoom(s: CtrlServer.Server, name: string, n: nat, at: int, pc: seq<nat>,
                    blocked: seq<bool>) returns (m: nat)
    requires |pc| == |blocked| == n && Gate(s, name, n, at, pc, blocked)
    ensures m < n && !(blocked[m] && pc[m] == at)
  {
    var w := CtrlServer.Waiting(s, name);
    AllPresent(w, n);
    m :| m < n && m !in w;
  }

  /** Deadlock freedom: as long as some machine has not finished, some machine can make
      its next request. */
  lemma SomebodyCanMove(net: Net, s: State, m: nat) returns (a: nat)
    requires Safe(net, s) && m < Size(net) && s.pc[m] < Last(net)
    ensures Enabled(net, s, a)
  {
    var p := Pushes(net);
    if !s.blocked[m] {
      return m;
    }
    if s.pc[m] < 2 * p {
      a := PusherCanMove(net, s, m);
      return;
    }
    a := MoverAtGate(net, s, m);
  }

  lemma MoverAtGate(net: Net, s: State, m: nat) returns (a: nat)
    requires Safe(net, s) && m < Size(net) && s.blocked[m] && 2 * Pushes(net) <= s.pc[m] < Last(net)
    ensures Enabled(net, s, a)
  {
    var p := Pushes(net);
    var name, at := if s.pc[m] == 2 * p then FIRST else SECOND, s.pc[m];
    a := GateHasRoom(s.servers[0], name, Size(net), at, s.pc, s.blocked);
    if s.blocked[a] {
      a := PusherCanMove(net, s, a);
    }
  }

  // ---------------------------------------------------------------- termination

  function Weight(pc: nat, blocked: bool): nat {
    2 * pc + if blocked then 1 else 0
  }

  function Work(pc: seq<nat>, blocked: seq<bool>): nat
    requires |pc| == |blocked|
  {
    if pc == [] then 0 else Weight(pc[0], blocked[0]) + Work(pc[1..], blocked[1..])
  }

  lemma {:induction false} WorkGrows(pc: seq<nat>, blocked: seq<bool>, next: seq<nat>, free: seq<bool>, m: int)
    requires |pc| == |blocked| == |next| == |free|
    requires forall i :: 0 <= i < |pc| ==>
               Weight(pc[i], blocked[i]) + (if i == m then 1 else 0) <= Weight(next[i], free[i])
    ensures Work(pc, blocked) + (if 0 <= m < |pc| then 1 else 0) <= Work(next, free)
  {
    if pc != [] {
      WorkGrows(pc[1..], blocked[1..], next[1..], free[1..], m - 1);
    }
  }

  lemma {:induction false} WorkBound(pc: seq<nat>, blocked: seq<bool>, most: nat)
    requires |pc| == |blocked| && forall i :: 0 <= i < |pc| ==> Weight(pc[i], blocked[i]) <= most
    ensures Work(pc, blocked) <= |pc| * most
  {
    if pc != [] {
      WorkBound(pc[1..], blocked[1..], most);
      assert |pc| * most == most + (|pc| - 1) * most;
    }
  }

  lemma {:induction false} WorkCounts(net: Net, states: seq<State>, movers: seq<nat>, i: nat)
    requires IsRun(net, states, movers) && i < |states|
    ensures Safe(net, states[i]) && i <= Work(states[i].pc, states[i].blocked)
  {
    RunIsSafe(net, states, movers, i);
    if i > 0 {
      WorkCounts(net, states, movers, i - 1);
      var s, t := states[i - 1], states[i];
      WorkGrows(s.pc, s.blocked, t.pc, t.blocked, movers[i - 1]);
    }
  }

  /** No run is longer than a number fixed by the number of machines; together with
      SomebodyCanMove, every run can be continued until all machines have finished, and
      cannot be continued forever. */
  lemma RunsAreBounded(net: Net, states: seq<State>, movers: seq<nat>)
    requires IsRun(net, states, movers)
    ensures |movers| <= Size(net) * (2 * Last(net) + 1)
  {
    WorkCounts(net, states, movers, |movers|);
    var s := states[|movers|];
    WorkBound(s.pc, s.blocked, 2 * Last(net) + 1);
  }

  /** A run that cannot go on has brought every machine to the end, each with the values
      of all its peers, and has left the servers empty. */
  lemma StuckMeansFinished(net: Net, states: seq<State>, movers: seq<nat>)
    requires IsRun(net, states, movers)
    requires forall m: nat :: !Enabled(net, states[|movers|], m)
    ensures var s := states[|movers|];
            && |s.pc| == |s.got| == |s.servers| == Size(net)
            && (forall m :: 0 <= m < Size(net) ==> s.pc[m] == Last(net))
            && (forall j :: 0 <= j < Size(net) ==> s.servers[j] == CtrlServer.EMPTY)
            && (forall m: nat, i: nat :: m < Size(net) && i < Pushes(net) ==>
                  && Index(net, m, i) && PullKey(net, m, i) in s.got[m]
                  && s.got[m][PullKey(net, m, i)] == net.val(KindOf(i), net.peers[m][i / 2], m))
  {
    var s := states[|movers|];
    RunIsSafe(net, states, movers, |movers|);
    forall m: nat | m < Size(net)
      ensures s.pc[m] == Last(net)
    {
      if s.pc[m] < Last(net) {
        var a := SomebodyCanMove(net, s, m);
      }
    }
    forall j: nat | j < Size(net)
      ensures s.servers[j] == CtrlServer.EMPTY
    {
      StoresEndEmpty(net, states, movers, |movers|, 0, j);
    }
    forall m: nat, i: nat | m < Size(net) && i < Pushes(net)
      ensures Index(net, m, i) && PullKey(net, m, i) in s.got[m]
      ensures s.got[m][PullKey(net, m, i)] == net.val(KindOf(i), net.peers[m][i / 2], m)
    {
      PullsReturnPushedValues(net, states, movers, |movers|, m, i);
    }
  }

  // ---------------------------------------------------------------- runs exist

  /** All machines but m, in order. */
  function Others(n: nat, m: nat): (r: seq<nat>)
    requires m < n
    ensures |r| == n - 1 && forall i :: 0 <= i < n - 1 ==> r[i] == if i < m then i else i + 1
  {
    seq(n - 1, i requires 0 <= i < n - 1 => if i < m then i else i + 1)
  }

  function SourceNet(n: nat, route: string -> nat, val: (Kind, nat, nat) -> string): Net {
    Net(seq(n, m requires 0 <= m < n => Others(n, m)), (k: Kind, a: nat, b: nat) => Key(k, a, b), route, val)
  }

  /** The results above speak about the source's own keys, any number of machines, any
      values and any assignment of keys to servers. */
  lemma EverySizeStarts(n: nat, route: string -> nat, val: (Kind, nat, nat) -> string)
    requires 1 <= n <= INT_MAX && forall k :: route(k) < n
    ensures exists s :: IsRun(SourceNet(n, route, val), [s], [])
  {
    var net := SourceNet(n, route, val);
    SourceKeysAreDistinct(net);
    forall m, p | 0 <= m < n && 0 <= p < n && p != m
      ensures p in net.peers[m]
    {
      assert net.peers[m][if p < m then p else p - 1] == p;
    }
    var s := State(seq(n, _ => CtrlServer.EMPTY), seq(n, _ => 0), seq(n, _ => false), seq(n, _ => map[]), false);
    assert InitialState(net, s);
    assert IsRun(net, [s], []);
  }

  // ---------------------------------------------------------------- where things are kept

  /** Each server keeps only what is sent to it: keys routed to it, and barriers on the
      master server. */
  ghost predicate AtHome(net: Net, server: CtrlServer.Server, j: nat) {
    && (forall key :: key in server.kv || key in server.pending ==> net.route(key) == j)
    && (forall name :: name in server.barriers ==> j == 0)
  }

  lemma HandleAtHome(net: Net, server: CtrlServer.Server, j: nat, call: nat, op: CtrlServer.Request)
    requires AtHome(net, server, j) && CtrlServer.Handle(server, call, op).Done?
    requires match op
             case Barrier(_, _) => j == 0
             case PushKV(key, _) => net.route(key) == j
             case ClearKV(key) => net.route(key) == j
             case PullKV(key) => net.route(key) == j
    ensures AtHome(net, CtrlServer.Handle(server, call, op).server, j)
  {
  }

  lemma StepAtHome(net: Net, s: State, m: nat, j: nat)
    requires Shaped(net, s) && Enabled(net, s, m) && j < Size(net) && AtHome(net, s.servers[j], j)
    ensures |Step(net, s, m).servers| == Size(net) && AtHome(net, Step(net, s, m).servers[j], j)
  {
    var op := OpAt(net, m, s.pc[m]);
    if ServerOf(net, op) == j && CtrlServer.Handle(s.servers[j], m, op).Done? {
      HandleAtHome(net, s.servers[j], j, m, op);
    }
  }

  /** In every run every key is kept by the server it is routed to, and every barrier by the
      master server. */
  lemma {:induction false} EverythingIsAtHome(net: Net, states: seq<State>, movers: seq<nat>, i: nat, j: nat)
    requires IsRun(net, states, movers) && i <= |movers| && j < Size(net)
    ensures |states[i].servers| == Size(net) && AtHome(net, states[i].servers[j], j)
  {
    if i > 0 {
      EverythingIsAtHome(net, states, movers, i - 1, j);
      StepAtHome(net, states[i - 1], movers[i - 1], j);
    }
  }
}
