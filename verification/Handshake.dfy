/**
 The start-up handshake: every machine runs the same program of pushes, pulls and
 clears with two barriers, against one control server per machine, in any
 interleaving.
 */
module Handshake {
  import opened Config
  import opened Keys
  import opened Options
  import CtrlServer

  datatype Kind = Conn | Tokens

  /** `peers[m]` is the order in which machine m visits the others, `key` the key
      builder, `route` the server responsible for a key, and `val(kind, a, b)` what
      machine a pushes for machine b. */
  datatype Net = Net(peers: seq<seq<nat>>, key: (Kind, nat, nat) -> string, route: string -> nat,
                     val: (Kind, nat, nat) -> string)

  function Size(net: Net): nat { |net.peers| }

  ghost predicate Distinct(s: seq<nat>) {
    forall i, j :: 0 <= i < j < |s| ==> s[i] != s[j]
  }

  ghost predicate Routed(net: Net) {
    forall k :: net.route(k) < Size(net)
  }

  /** Different kinds or different pairs of machines have different keys. */
  ghost predicate KeysDistinct(net: Net) {
    forall k, l, a: nat, b: nat, c: nat, d: nat ::
      a < Size(net) && b < Size(net) && c < Size(net) && d < Size(net) && net.key(k, a, b) == net.key(l, c, d) ==>
        k == l && a == c && b == d
  }

  ghost predicate Valid(net: Net) {
    var n := Size(net);
    && 1 <= n <= INT_MAX
    && Routed(net)
    && KeysDistinct(net)
    && forall m :: 0 <= m < n ==>
         && |net.peers[m]| == n - 1
         && Distinct(net.peers[m])
         && (forall i :: 0 <= i < n - 1 ==> net.peers[m][i] < n && net.peers[m][i] != m)
         && (forall p :: 0 <= p < n && p != m ==> p in net.peers[m])
  }

  /** Number of keys each machine pushes, pulls and clears. */
  function Pushes(net: Net): int { 2 * (Size(net) - 1) }

  const FIRST := "comm_network/ibverbs/ibverbs_comm_network.cpp:62"
  const SECOND := "comm_network/ibverbs/ibverbs_comm_network.cpp:68"

  function KindOf(i: int): Kind {
    if i % 2 == 0 then Conn else Tokens
  }

  predicate Index(net: Net, m: int, i: int) {
    0 <= m < Size(net) && 0 <= i < Pushes(net) && i / 2 < |net.peers[m]|
  }

  /** The i-th key machine m pushes, and later clears. */
  function PushKey(net: Net, m: nat, i: nat): string
    requires Index(net, m, i)
  {
    net.key(KindOf(i), m, net.peers[m][i / 2])
  }

  function PushVal(net: Net, m: nat, i: nat): string
    requires Index(net, m, i)
  {
    net.val(KindOf(i), m, net.peers[m][i / 2])
  }

  /** The i-th key machine m pulls: what its peer pushed for it. */
  function PullKey(net: Net, m: nat, i: nat): string
    requires Index(net, m, i)
  {
    net.key(KindOf(i), net.peers[m][i / 2], m)
  }

  function PullVal(net: Net, m: nat, i: nat): string
    requires Index(net, m, i)
  {
    net.val(KindOf(i), net.peers[m][i / 2], m)
  }

  function Last(net: Net): int { 3 * Pushes(net) + 2 }

  lemma IndexInside(net: Net, m: nat, i: nat)
    requires Valid(net) && m < Size(net) && i < Pushes(net)
    ensures Index(net, m, i)
  {
  }

  /** SetUp, as the request machine m makes at position pc. */
  function OpAt(net: Net, m: nat, pc: nat): CtrlServer.Request
    requires Valid(net) && m < Size(net) && pc < Last(net)
  {
    var p := Pushes(net);
    if pc < p then IndexInside(net, m, pc); CtrlServer.PushKV(PushKey(net, m, pc), PushVal(net, m, pc))
    else if pc < 2 * p then IndexInside(net, m, pc - p); CtrlServer.PullKV(PullKey(net, m, pc - p))
    else if pc == 2 * p then CtrlServer.Barrier(FIRST, Size(net))
    else if pc <= 3 * p then IndexInside(net, m, pc - 2 * p - 1); CtrlServer.ClearKV(PushKey(net, m, pc - 2 * p - 1))
    else CtrlServer.Barrier(SECOND, Size(net))
  }

  /** `ops` are the first requests of machine m. */
  ghost predicate Prefix(net: Net, m: nat, ops: seq<CtrlServer.Request>)
    requires Valid(net) && m < Size(net)
  {
    |ops| <= Last(net) && forall pc :: 0 <= pc < |ops| ==> ops[pc] == OpAt(net, m, pc)
  }

  /** The two requests for one peer, at the position of its turn in each loop. */
  lemma PushTurn(net: Net, m: nat, i: nat, ops: seq<CtrlServer.Request>)
    requires Valid(net) && m < Size(net) && i < |net.peers[m]| && |ops| == 2 * i && Prefix(net, m, ops)
    ensures var peer := net.peers[m][i];
            Prefix(net, m, ops + [CtrlServer.PushKV(net.key(Conn, m, peer), net.val(Conn, m, peer)),
                                  CtrlServer.PushKV(net.key(Tokens, m, peer), net.val(Tokens, m, peer))])
  {
    assert 2 * i / 2 == i && (2 * i + 1) / 2 == i && (2 * i) % 2 == 0 && (2 * i + 1) % 2 == 1;
  }

  lemma PullTurn(net: Net, m: nat, i: nat, ops: seq<CtrlServer.Request>)
    requires Valid(net) && m < Size(net) && i < |net.peers[m]| && |ops| == Pushes(net) + 2 * i && Prefix(net, m, ops)
    ensures var peer := net.peers[m][i];
            Prefix(net, m, ops + [CtrlServer.PullKV(net.key(Conn, peer, m)),
                                  CtrlServer.PullKV(net.key(Tokens, peer, m))])
  {
    assert 2 * i / 2 == i && (2 * i + 1) / 2 == i && (2 * i) % 2 == 0 && (2 * i + 1) % 2 == 1;
  }

  lemma ClearTurn(net: Net, m: nat, i: nat, ops: seq<CtrlServer.Request>)
    requires Valid(net) && m < Size(net) && i < |net.peers[m]| && |ops| == 2 * Pushes(net) + 1 + 2 * i
    requires Prefix(net, m, ops)
    ensures var peer := net.peers[m][i];
            Prefix(net, m, ops + [CtrlServer.ClearKV(net.key(Conn, m, peer)),
                                  CtrlServer.ClearKV(net.key(Tokens, m, peer))])
  {
    assert 2 * i / 2 == i && (2 * i + 1) / 2 == i && (2 * i) % 2 == 0 && (2 * i + 1) % 2 == 1;
  }

  lemma BarrierTurn(net: Net, m: nat, ops: seq<CtrlServer.Request>)
    requires Valid(net) && m < Size(net) && Prefix(net, m, ops)
    ensures |ops| == 2 * Pushes(net) ==> Prefix(net, m, ops + [CtrlServer.Barrier(FIRST, Size(net))])
    ensures |ops| == 3 * Pushes(net) + 1 ==> Prefix(net, m, ops + [CtrlServer.Barrier(SECOND, Size(net))])
  {
  }

  /** SetUp as it is written: three loops over the peers with a barrier after the second
      and the third.  It makes exactly the requests of OpAt, in that order. */
  method SetUp(net: Net, m: nat) returns (ops: seq<CtrlServer.Request>)
    requires Valid(net) && m < Size(net)
    ensures |ops| == Last(net) && forall pc :: 0 <= pc < Last(net) ==> ops[pc] == OpAt(net, m, pc)
  {
    var peers := net.peers[m];
    ops := [];
    for i := 0 to |peers|
      invariant |ops| == 2 * i && Prefix(net, m, ops)
    {
      PushTurn(net, m, i, ops);
      ops := ops + [CtrlServer.PushKV(net.key(Conn, m, peers[i]), net.val(Conn, m, peers[i])),
                    CtrlServer.PushKV(net.key(Tokens, m, peers[i]), net.val(Tokens, m, peers[i]))];
    }
    for i := 0 to |peers|
      invariant |ops| == Pushes(net) + 2 * i && Prefix(net, m, ops)
    {
      PullTurn(net, m, i, ops);
      ops := ops + [CtrlServer.PullKV(net.key(Conn, peers[i], m)), CtrlServer.PullKV(net.key(Tokens, peers[i], m))];
    }
    BarrierTurn(net, m, ops);
    ops := ops + [CtrlServer.Barrier(FIRST, Size(net))];
    for i := 0 to |peers|
      invariant |ops| == 2 * Pushes(net) + 1 + 2 * i && Prefix(net, m, ops)
    {
      ClearTurn(net, m, i, ops);
      ops := ops + [CtrlServer.ClearKV(net.key(Conn, m, peers[i])), CtrlServer.ClearKV(net.key(Tokens, m, peers[i]))];
    }
    BarrierTurn(net, m, ops);
    ops := ops + [CtrlServer.Barrier(SECOND, Size(net))];
  }

  /** Barriers live on the master server, keys on the one responsible for them. */
  function ServerOf(net: Net, op: CtrlServer.Request): nat {
    match op
    case Barrier(_, _) => 0
    case PushKV(k, _) => net.route(k)
    case ClearKV(k) => net.route(k)
    case PullKV(k) => net.route(k)
  }

  /** Per machine: its position, whether it waits for an answer, the values it pulled.
      `failed` is set when a server CHECK fails. */
  datatype State = State(servers: seq<CtrlServer.Server>, pc: seq<nat>, blocked: seq<bool>,
                         got: seq<map<string, string>>, failed: bool)

  function Find(sent: seq<CtrlServer.Response>, m: nat): Option<CtrlServer.Response> {
    if sent == [] then None
    else if sent[0].call == m then Some(sent[0])
    else Find(sent[1..], m)
  }

  function Got(net: Net, m: nat, pc: nat, got: map<string, string>, r: CtrlServer.Response): map<string, string>
    requires Valid(net) && m < Size(net) && pc < Last(net)
  {
    var op := OpAt(net, m, pc);
    if op.PullKV? && r.val.Some? then got[op.key := r.val.value] else got
  }

  ghost predicate Shaped(net: Net, s: State) {
    && Valid(net)
    && |s.servers| == |s.pc| == |s.blocked| == |s.got| == Size(net)
    && forall m :: 0 <= m < Size(net) ==> s.pc[m] <= Last(net)
  }

  predicate Enabled(net: Net, s: State, m: nat) {
    !s.failed && m < |s.blocked| && m < |s.pc| && !s.blocked[m] && s.pc[m] < Last(net)
  }

  /** Machine m makes its next request; the server handles it at once; every machine
      whose call is answered goes on. */
  function Step(net: Net, s: State, m: nat): State
    requires Shaped(net, s) && Enabled(net, s, m)
  {
    var op := OpAt(net, m, s.pc[m]);
    var j := ServerOf(net, op);
    match CtrlServer.Handle(s.servers[j], m, op)
    case Abort => s.(failed := true)
    case Done(server, sent) =>
      var n := Size(net);
      State(s.servers[j := server],
            seq(n, i requires 0 <= i < n && Shaped(net, s) => if Find(sent, i).Some? then s.pc[i] + 1 else s.pc[i]),
            seq(n, i requires 0 <= i < n && Shaped(net, s) && m < n =>
                     if Find(sent, i).Some? then false else if i == m then true else s.blocked[i]),
            seq(n, i requires 0 <= i < n && Shaped(net, s) =>
                     if Find(sent, i).Some? && s.pc[i] < Last(net)
                      then Got(net, i, s.pc[i], s.got[i], Find(sent, i).value)
                     else s.got[i]),
            false)
  }

  ghost predicate InitialState(net: Net, s: State) {
    && Valid(net)
    && s == State(seq(Size(net), _ => CtrlServer.EMPTY), seq(Size(net), _ => 0), seq(Size(net), _ => false),
                  seq(Size(net), _ => map[]), false)
  }

  ghost predicate IsRun(net: Net, states: seq<State>, movers: seq<nat>) {
    && |states| == |movers| + 1
    && InitialState(net, states[0])
    && forall i :: 0 <= i < |movers| ==>
         && Shaped(net, states[i])
         && Enabled(net, states[i], movers[i])
         && states[i + 1] == Step(net, states[i], movers[i])
  }

  // ---------------------------------------------------------------- keys

  /** The key builders of the source. */
  function Key(kind: Kind, a: nat, b: nat): string {
    match kind case Conn => ConnInfoKey(a, b) case Tokens => TokensMsgKey(a, b)
  }

  lemma KeyInjective(k: Kind, a: nat, b: nat, l: Kind, c: nat, d: nat)
    requires b <= INT_MAX && d <= INT_MAX
    ensures Key(k, a, b) == Key(l, c, d) <==> k == l && a == c && b == d
  {
    ConnInfoKeyInjective(a, b, c, d);
    TokensMsgKeyCollides(a, b, c, d);
    KindsNeverCollide(a, b, c, d);
    KindsNeverCollide(c, d, a, b);
    Small(b, U32);
    Small(d, U32);
  }

  /** With the source's key builders the keys of all machines are distinct, as long as
      machine ids fit an int. */
  lemma SourceKeysAreDistinct(net: Net)
    requires Size(net) <= INT_MAX
    requires forall k, a: nat, b: nat :: net.key(k, a, b) == Key(k, a, b)
    ensures KeysDistinct(net)
  {
    forall k, l, a: nat, b: nat, c: nat, d: nat |
      a < Size(net) && b < Size(net) && c < Size(net) && d < Size(net) && net.key(k, a, b) == net.key(l, c, d)
      ensures k == l && a == c && b == d
    {
      KeyInjective(k, a, b, l, c, d);
    }
  }

  lemma SameKind(i: nat, j: nat)
    ensures KindOf(i) == KindOf(j) && i / 2 == j / 2 ==> i == j
  {
  }

  /** No two machines push the same key, and no machine pushes a key twice. */
  lemma PushKeysDiffer(net: Net, m: nat, i: nat, n: nat, j: nat)
    requires Valid(net) && Index(net, m, i) && Index(net, n, j)
    ensures PushKey(net, m, i) == PushKey(net, n, j) <==> m == n && i == j
  {
    SameKind(i, j);
  }

  lemma PullKeysDiffer(net: Net, m: nat, i: nat, n: nat, j: nat)
    requires Valid(net) && Index(net, m, i) && Index(net, n, j)
    ensures PullKey(net, m, i) == PullKey(net, n, j) <==> m == n && i == j
  {
    SameKind(i, j);
  }

  /** What a machine pulls is what its peer pushes for it. */
  lemma PulledKeyIsPushed(net: Net, m: nat, i: nat) returns (a: nat, j: nat)
    requires Valid(net) && Index(net, m, i)
    ensures Index(net, a, j) && PushKey(net, a, j) == PullKey(net, m, i) && PushVal(net, a, j) == PullVal(net, m, i)
  {
    a := net.peers[m][i / 2];
    assert m in net.peers[a];
    var x :| 0 <= x < |net.peers[a]| && net.peers[a][x] == m;
    j := 2 * x + i % 2;
    assert j / 2 == x && j % 2 == i % 2;
  }

  // ---------------------------------------------------------------- counting machines

  function Range(n: nat): (r: set<nat>)
    ensures forall i: nat :: i in r <==> i < n
  {
    if n == 0 then {} else Range(n - 1) + {n - 1}
  }

  lemma {:induction false} RangeSize(n: nat)
    ensures |Range(n)| == n
  {
    if n > 0 {
      RangeSize(n - 1);
    }
  }

  function Elements(s: seq<nat>): (r: set<nat>)
    ensures forall x :: x in r <==> x in s
  {
    if s == [] then {} else Elements(s[..|s| - 1]) + {s[|s| - 1]}
  }

  lemma {:induction false} DistinctSize(s: seq<nat>)
    requires Distinct(s)
    ensures |Elements(s)| == |s|
  {
    if s != [] {
      DistinctSize(s[..|s| - 1]);
    }
  }

  /** n different machines out of n are all machines. */
  lemma AllPresent(s: seq<nat>, n: nat)
    requires Distinct(s) && (forall i :: 0 <= i < |s| ==> s[i] < n)
    ensures |s| <= n
    ensures |s| == n <==> forall m: nat :: m < n ==> m in s
  {
    DistinctSize(s);
    RangeSize(n);
    SubsetSize(Elements(s), Range(n));
    if |s| == n {
      assert forall m: nat :: m < n ==> m in Range(n);
    }
    if forall m: nat :: m < n ==> m in s {
      SubsetSize(Range(n), Elements(s));
    }
  }

  lemma SubsetSize(a: set<nat>, b: set<nat>)
    requires a <= b
    ensures |a| <= |b| && (|a| == |b| ==> a == b)
  {
    var rest := b - a;
    assert b == a + rest && |b| == |a| + |rest|;
  }
}
