/**
 * The socket table of one adbd process as a graph of asockets: peer pointers, the open
 * and the closing list, and the disconnect list of each transport (adbd/src/sockets.c,
 * adbd/src/transport.c).  Closing is mutually recursive over the cyclic peer graph in
 * the source; here it is proved equal to retiring the peer and then the socket itself.
 */
module SocketGraph {
  import opened Common
  import opened Fifo

  /** `backlog` counts queued packets; wantRead and wantWrite are FDE_READ and FDE_WRITE. */
  datatype Sock = Sock(
    local: bool, id: nat, closing: bool, peer: Option<nat>, transport: Option<nat>,
    backlog: nat, wantRead: bool, wantWrite: bool)

  /** `hooks` are the disconnect lists; `clse` records the CLSE packets sent (transport, arg1). */
  datatype Graph = Graph(
    socks: map<nat, Sock>, listed: seq<nat>, closing: seq<nat>, hooks: map<nat, seq<nat>>,
    nextId: nat, clse: seq<(nat, nat)>)

  const EMPTY := Graph(map[], [], [], map[], 1, [])

  function Hooks(g: Graph, t: nat): seq<nat> { if t in g.hooks then g.hooks[t] else [] }

  function Unhook(g: Graph, t: nat, x: nat): map<nat, seq<nat>> {
    g.hooks[t := Without(Hooks(g, t), x)]
  }

  /** What is left once a socket with no peer has been closed. */
  function Retire(g: Graph, x: nat): Graph
    requires x in g.socks
  {
    var s := g.socks[x];
    if !s.local then
      if s.transport.None? then g.(socks := g.socks - {x})
      else g.(socks := g.socks - {x}, hooks := Unhook(g, s.transport.value, x),
              clse := g.clse + [(s.transport.value, s.id)])
    else if s.closing || s.backlog == 0 then
      g.(socks := g.socks - {x}, listed := Without(g.listed, x), closing := Without(g.closing, x))
    else
      g.(socks := g.socks[x := s.(peer := None, closing := true, id := 0, wantRead := false)],
         listed := Without(g.listed, x), closing := Without(g.closing, x) + [x])
  }

  /** The reference for close: retire the peer, then the socket. */
  function Closed(g: Graph, x: nat): Graph
    requires x in g.socks && (g.socks[x].peer.Some? ==> g.socks[x].peer.value in g.socks && g.socks[x].peer.value != x)
  {
    if g.socks[x].peer.None? then Retire(g, x)
    else
      var g1 := Retire(g, g.socks[x].peer.value);
      Retire(g1, x)
  }

  /** remote_socket_disconnect: the peer is closed, the remote socket goes without a CLSE. */
  function Disconnected(g: Graph, r: nat): Graph
    requires r in g.socks && (g.socks[r].peer.Some? ==> g.socks[r].peer.value in g.socks && g.socks[r].peer.value != r)
  {
    var g1 := if g.socks[r].peer.None? then g else Retire(g, g.socks[r].peer.value);
    var t := g.socks[r].transport;
    g1.(socks := g1.socks - {r}, hooks := if t.None? then g1.hooks else Unhook(g1, t.value, r))
  }

  // ---- the invariant ----

  ghost predicate SockOk(g: Graph, x: nat)
    requires x in g.socks
  {
    var s := g.socks[x];
    && (s.peer.Some? ==>
          && s.peer.value in g.socks && s.peer.value != x
          && g.socks[s.peer.value].peer == Some(x))
    && (if s.local then
          && (if s.closing then x in g.closing && s.peer.None? && s.id == 0 && s.backlog > 0 && !s.wantRead
              else x in g.listed && 1 <= s.id < g.nextId)
          && (s.wantWrite <==> s.backlog > 0)
        else
          && s.transport.Some? && x in Hooks(g, s.transport.value)
          && (s.peer.Some? ==> g.socks[s.peer.value].local))
  }

  ghost predicate LocalLists(g: Graph) {
    && Distinct(g.listed) && Distinct(g.closing) && g.nextId >= 1
    && (forall x :: x in g.listed ==> x in g.socks && g.socks[x].local && !g.socks[x].closing)
    && (forall x :: x in g.closing ==> x in g.socks && g.socks[x].local && g.socks[x].closing)
    && (forall x, y :: x in g.listed && y in g.listed && x != y ==> g.socks[x].id != g.socks[y].id)
  }

  ghost predicate HookLists(g: Graph) {
    && (forall t :: t in g.hooks ==> Distinct(g.hooks[t]))
    && (forall t, x :: t in g.hooks && x in g.hooks[t] ==>
          x in g.socks && !g.socks[x].local && g.socks[x].transport == Some(t))
  }

  ghost predicate ListsOk(g: Graph) { LocalLists(g) && HookLists(g) }

  ghost predicate Inv(g: Graph) {
    ListsOk(g) && forall x :: x in g.socks ==> SockOk(g, x)
  }

  lemma RetireLocalLists(g: Graph, x: nat)
    requires LocalLists(g) && x in g.socks
    ensures LocalLists(Retire(g, x))
  {
    var s := g.socks[x];
    if s.local {
      if s.closing || s.backlog == 0 { DestroyLocalLists(g, x); } else { LingerLocalLists(g, x); }
    }
  }

  lemma DestroyLocalLists(g: Graph, x: nat)
    requires LocalLists(g) && x in g.socks && g.socks[x].local && (g.socks[x].closing || g.socks[x].backlog == 0)
    ensures LocalLists(Retire(g, x))
  {
    WithoutDistinct(g.listed, x);
    WithoutDistinct(g.closing, x);
  }

  lemma LingerLocalLists(g: Graph, x: nat)
    requires LocalLists(g) && x in g.socks && g.socks[x].local && !g.socks[x].closing && g.socks[x].backlog != 0
    ensures LocalLists(Retire(g, x))
  {
    WithoutDistinct(g.listed, x);
    AtTailDistinct(g.closing, x);
    var g' := Retire(g, x);
    forall y | y in g'.closing ensures y in g'.socks && g'.socks[y].local && g'.socks[y].closing {
      assert y == x || y in g.closing;
    }
  }

  lemma RetireHookLists(g: Graph, x: nat)
    requires HookLists(g) && x in g.socks
    ensures HookLists(Retire(g, x))
  {
    var s := g.socks[x];
    if !s.local && s.transport.Some? {
      var t := s.transport.value;
      WithoutDistinct(Hooks(g, t), x);
      forall u | u in Retire(g, x).hooks ensures Distinct(Retire(g, x).hooks[u]) {
        assert u == t || u in g.hooks;
      }
    }
  }

  lemma RetireLists(g: Graph, x: nat)
    requires ListsOk(g) && x in g.socks
    ensures ListsOk(Retire(g, x))
  {
    RetireLocalLists(g, x);
    RetireHookLists(g, x);
  }

  /** Retiring x touches no other socket and no other list entry. */
  lemma RetireOthers(g: Graph, x: nat, y: nat)
    requires x in g.socks && x != y
    ensures var g' := Retire(g, x);
      && (y in g'.socks <==> y in g.socks) && (y in g.socks ==> g'.socks[y] == g.socks[y])
      && (y in g'.listed <==> y in g.listed) && (y in g'.closing <==> y in g.closing)
      && (forall t :: y in Hooks(g', t) <==> y in Hooks(g, t))
      && g'.nextId == g.nextId
  {
  }

  /** What remains of x itself: nothing, or a closing socket that only has to write. */
  lemma RetireSelf(g: Graph, x: nat)
    requires x in g.socks && (g.socks[x].local ==> (g.socks[x].wantWrite <==> g.socks[x].backlog > 0))
    ensures var g' := Retire(g, x); x in g'.socks ==> SockOk(g', x) && g'.socks[x].peer.None? && g'.socks[x].closing
  {
  }

  lemma ClosedLists(g: Graph, x: nat)
    requires Inv(g) && x in g.socks
    ensures SockOk(g, x) && ListsOk(Closed(g, x))
  {
    assert SockOk(g, x);
    var s := g.socks[x];
    var g1 := if s.peer.Some? then Retire(g, s.peer.value) else g;
    if s.peer.Some? {
      RetireLists(g, s.peer.value);
      RetireOthers(g, s.peer.value, x);
    }
    RetireLists(g1, x);
  }

  lemma ClosedThird(g: Graph, x: nat, y: nat)
    requires Inv(g) && x in g.socks && y in g.socks && y != x && g.socks[x].peer != Some(y)
    ensures SockOk(g, x) && y in Closed(g, x).socks && SockOk(Closed(g, x), y)
  {
    assert SockOk(g, x) && SockOk(g, y);
    var p := g.socks[x].peer;
    if p.Some? {
      RetireOthers(g, p.value, x);
      RetireOthers(g, p.value, y);
      RetireOthers(Retire(g, p.value), x, y);
    } else {
      RetireOthers(g, x, y);
    }
    if g.socks[y].peer.Some? { PeerSurvives(g, x, y); OtherKept(g, x, g.socks[y].peer.value); }
  }

  /** What remains of x and of its peer. */
  lemma ClosedPair(g: Graph, x: nat, y: nat)
    requires Inv(g) && x in g.socks && (y == x || g.socks[x].peer == Some(y))
    ensures SockOk(g, x) && (y in Closed(g, x).socks ==> SockOk(Closed(g, x), y) && Closed(g, x).socks[y].closing)
  {
    assert SockOk(g, x);
    var p := g.socks[x].peer;
    if p.Some? {
      assert SockOk(g, p.value);
      RetireOthers(g, p.value, x);
      RetireSelf(g, p.value);
      RetireOthers(Retire(g, p.value), x, p.value);
      RetireSelf(Retire(g, p.value), x);
    } else {
      RetireSelf(g, x);
    }
  }

  lemma ClosedOnly(g: Graph, x: nat, y: nat)
    requires Inv(g) && x in g.socks
    ensures SockOk(g, x) && (y in Closed(g, x).socks ==> y in g.socks)
  {
    assert SockOk(g, x);
    var p := g.socks[x].peer;
    if p.Some? {
      RetireOthers(g, p.value, x);
      if y != p.value && y != x {
        RetireOthers(g, p.value, y);
        RetireOthers(Retire(g, p.value), x, y);
      }
    } else if y != x {
      RetireOthers(g, x, y);
    }
  }

  lemma ClosedInv(g: Graph, x: nat)
    requires Inv(g) && x in g.socks
    ensures SockOk(g, x) && Inv(Closed(g, x))
  {
    ClosedLists(g, x);
    forall y | y in Closed(g, x).socks ensures SockOk(Closed(g, x), y) {
      ClosedOnly(g, x, y);
      if y == x || g.socks[x].peer == Some(y) { ClosedPair(g, x, y); } else { ClosedThird(g, x, y); }
    }
  }

  /** Peers come in pairs: the peer of a third socket is neither x nor the peer of x. */
  lemma PeerSurvives(g: Graph, x: nat, y: nat)
    requires Inv(g) && x in g.socks && y in g.socks && y != x && g.socks[x].peer != Some(y)
    requires g.socks[y].peer.Some?
    ensures var z, g' := g.socks[y].peer.value, Closed(g, x);
      z in g'.socks && g'.socks[z].peer == Some(y)
  {
    var z := g.socks[y].peer.value;
    assert SockOk(g, y) && SockOk(g, x) && SockOk(g, z);
    var p := g.socks[x].peer;
    if p.Some? {
      assert SockOk(g, p.value);
      RetireOthers(g, p.value, z);
      RetireOthers(g, p.value, x);
      RetireOthers(Retire(g, p.value), x, z);
    } else {
      RetireOthers(g, x, z);
    }
  }

  /** The only difference from Closed is that no CLSE is recorded. */
  lemma DisconnectedIsClosed(g: Graph, r: nat)
    requires Inv(g) && r in g.socks && !g.socks[r].local
    ensures SockOk(g, r) && Disconnected(g, r) == Closed(g, r).(clse := Disconnected(g, r).clse)
  {
    assert SockOk(g, r);
    if g.socks[r].peer.Some? { RetireOthers(g, g.socks[r].peer.value, r); }
  }

  lemma DisconnectedInv(g: Graph, r: nat)
    requires Inv(g) && r in g.socks && !g.socks[r].local
    ensures SockOk(g, r) && Inv(Disconnected(g, r))
  {
    ClosedInv(g, r);
    DisconnectedIsClosed(g, r);
    SameButClse(Closed(g, r), Disconnected(g, r));
  }

  lemma SameButClse(g: Graph, g': Graph)
    requires Inv(g) && g' == g.(clse := g'.clse)
    ensures Inv(g')
  {
    forall x | x in g'.socks ensures SockOk(g', x) { assert SockOk(g, x); }
  }

  // ---- every operation keeps the invariant ----

  datatype Op =
    | Create(x: nat)                                  // create_local_socket
    | Link(x: nat, r: nat, rid: nat, t: nat)          // create_remote_socket and the two peer stores
    | Pair(x: nat, y: nat)                            // two local sockets made peers
    | Ready(x: nat)                                   // local_socket_ready
    | Push(x: nat)                                    // local_socket_enqueue leaves a backlog
    | Drain(x: nat)                                   // the write event empties the backlog
    | Shut(x: nat)                                    // s->close(s)
    | Lose(r: nat)                                    // remote_socket_disconnect

  predicate Listed(g: Graph, x: nat) { x in g.socks && g.socks[x].local && !g.socks[x].closing }

  function SetSock(g: Graph, x: nat, s: Sock): Graph { g.(socks := g.socks[x := s]) }

  /** Operations whose guard does not hold leave the graph alone. */
  function Step(g: Graph, op: Op): Graph {
    match op
    case Create(x) =>
      if x in g.socks then g
      else SetSock(g, x, Sock(true, g.nextId, false, None, None, 0, false, false))
           .(listed := g.listed + [x], nextId := g.nextId + 1)
    case Link(x, r, rid, t) =>
      if !Listed(g, x) || g.socks[x].peer.Some? || r in g.socks || r == x then g
      else SetSock(SetSock(g, x, g.socks[x].(peer := Some(r), wantRead := true)),
                   r, Sock(false, rid, false, Some(x), Some(t), 0, false, false))
           .(hooks := g.hooks[t := Hooks(g, t) + [r]])
    case Pair(x, y) =>
      if !Listed(g, x) || !Listed(g, y) || x == y || g.socks[x].peer.Some? || g.socks[y].peer.Some? then g
      else SetSock(SetSock(g, x, g.socks[x].(peer := Some(y))), y, g.socks[y].(peer := Some(x)))
    case Ready(x) =>
      if !Listed(g, x) then g else SetSock(g, x, g.socks[x].(wantRead := true))
    case Push(x) =>
      if !Listed(g, x) then g
      else SetSock(g, x, g.socks[x].(backlog := g.socks[x].backlog + 1, wantWrite := true))
    case Drain(x) =>
      if x !in g.socks || !g.socks[x].local || g.socks[x].backlog == 0 then g
      else if !g.socks[x].closing && g.socks[x].peer.None? then g  // s->peer is null: see Peered
      else
        var s := g.socks[x].(backlog := 0, wantWrite := g.socks[x].closing);
        if s.closing then Retire(SetSock(g, x, s), x) else SetSock(g, x, s)
    case Shut(x) =>
      if x in g.socks && (g.socks[x].peer.Some? ==> g.socks[x].peer.value in g.socks && g.socks[x].peer.value != x)
      then Closed(g, x) else g
    case Lose(r) =>
      if r in g.socks && !g.socks[r].local
         && (g.socks[r].peer.Some? ==> g.socks[r].peer.value in g.socks && g.socks[r].peer.value != r)
      then Disconnected(g, r) else g
  }

  /** The lists stay right when no socket changes its kind, id or transport. */
  lemma SameLists(g: Graph, g': Graph)
    requires ListsOk(g) && g'.listed == g.listed && g'.closing == g.closing && g'.hooks == g.hooks && g'.nextId == g.nextId
    requires g'.socks.Keys == g.socks.Keys
    requires forall x :: x in g.socks ==>
      && g'.socks[x].local == g.socks[x].local && g'.socks[x].closing == g.socks[x].closing
      && g'.socks[x].id == g.socks[x].id && g'.socks[x].transport == g.socks[x].transport
    ensures ListsOk(g')
  {
  }

  lemma TouchSockOk(g: Graph, x: nat, s: Sock, y: nat)
    requires Inv(g) && Listed(g, x) && y in g.socks
    requires s == g.socks[x].(wantRead := s.wantRead, backlog := s.backlog, wantWrite := s.wantWrite)
    requires s.wantWrite <==> s.backlog > 0
    ensures SockOk(SetSock(g, x, s), y)
  {
    assert SockOk(g, x) && SockOk(g, y);
  }

  /** Changing read interest, backlog and write interest of one listed socket. */
  lemma TouchInv(g: Graph, x: nat, s: Sock)
    requires Inv(g) && Listed(g, x)
    requires s == g.socks[x].(wantRead := s.wantRead, backlog := s.backlog, wantWrite := s.wantWrite)
    requires s.wantWrite <==> s.backlog > 0
    ensures Inv(SetSock(g, x, s))
  {
    var g' := SetSock(g, x, s);
    SameLists(g, g');
    forall y | y in g'.socks ensures SockOk(g', y) { TouchSockOk(g, x, s, y); }
  }

  lemma CreateSockOk(g: Graph, x: nat, y: nat)
    requires Inv(g) && x !in g.socks && (y in g.socks || y == x)
    ensures SockOk(Step(g, Create(x)), y)
  {
    if y != x { assert SockOk(g, y); }
  }

  lemma CreateLocalLists(g: Graph, x: nat)
    requires Inv(g) && x !in g.socks
    ensures LocalLists(Step(g, Create(x)))
  {
    forall y | y in g.listed ensures g.socks[y].id < g.nextId { assert SockOk(g, y); }
  }

  lemma CreateLists(g: Graph, x: nat)
    requires Inv(g) && x !in g.socks
    ensures ListsOk(Step(g, Create(x)))
  {
    CreateLocalLists(g, x);
  }

  lemma CreateInv(g: Graph, x: nat)
    requires Inv(g) && x !in g.socks
    ensures Inv(Step(g, Create(x)))
  {
    var g' := Step(g, Create(x));
    CreateLists(g, x);
    forall y | y in g'.socks ensures SockOk(g', y) { CreateSockOk(g, x, y); }
  }

  lemma LinkSockOk(g: Graph, x: nat, r: nat, rid: nat, t: nat, y: nat)
    requires Inv(g) && Listed(g, x) && g.socks[x].peer.None? && r !in g.socks && r != x
    requires y in g.socks || y == r
    ensures SockOk(Step(g, Link(x, r, rid, t)), y)
  {
    assert SockOk(g, x);
    if y != r { assert SockOk(g, y); }
  }

  lemma LinkHooks(g: Graph, x: nat, r: nat, rid: nat, t: nat)
    requires Inv(g) && Listed(g, x) && g.socks[x].peer.None? && r !in g.socks && r != x
    ensures HookLists(Step(g, Link(x, r, rid, t)))
  {
    var g' := Step(g, Link(x, r, rid, t));
    assert r !in Hooks(g, t);
    forall u, y | u in g'.hooks && y in g'.hooks[u]
      ensures y in g'.socks && !g'.socks[y].local && g'.socks[y].transport == Some(u)
    {
      assert (u == t && y == r) || y in Hooks(g, u);
    }
  }

  lemma LinkLists(g: Graph, x: nat, r: nat, rid: nat, t: nat)
    requires Inv(g) && Listed(g, x) && g.socks[x].peer.None? && r !in g.socks && r != x
    ensures ListsOk(Step(g, Link(x, r, rid, t)))
  {
    LinkHooks(g, x, r, rid, t);
  }

  lemma LinkInv(g: Graph, x: nat, r: nat, rid: nat, t: nat)
    requires Inv(g) && Listed(g, x) && g.socks[x].peer.None? && r !in g.socks && r != x
    ensures Inv(Step(g, Link(x, r, rid, t)))
  {
    var g' := Step(g, Link(x, r, rid, t));
    LinkLists(g, x, r, rid, t);
    forall y | y in g'.socks ensures SockOk(g', y) { LinkSockOk(g, x, r, rid, t, y); }
  }

  lemma PairSockOk(g: Graph, x: nat, y: nat, z: nat)
    requires Inv(g) && Listed(g, x) && Listed(g, y) && x != y && g.socks[x].peer.None? && g.socks[y].peer.None?
    requires z in g.socks
    ensures SockOk(Step(g, Pair(x, y)), z)
  {
    assert SockOk(g, x) && SockOk(g, y) && SockOk(g, z);
  }

  lemma PairInv(g: Graph, x: nat, y: nat)
    requires Inv(g) && Listed(g, x) && Listed(g, y) && x != y && g.socks[x].peer.None? && g.socks[y].peer.None?
    ensures Inv(Step(g, Pair(x, y)))
  {
    var g' := Step(g, Pair(x, y));
    SameLists(g, g');
    forall z | z in g'.socks ensures SockOk(g', z) { PairSockOk(g, x, y, z); }
  }

  /** Draining a closing socket is closing it. */
  lemma DrainIsClose(g: Graph, x: nat)
    requires Inv(g) && x in g.socks && g.socks[x].local && g.socks[x].closing
    ensures SockOk(g, x) && Step(g, Drain(x)) == Closed(g, x)
  {
    assert SockOk(g, x);
    var s := g.socks[x].(backlog := 0, wantWrite := true);
    assert SetSock(g, x, s).socks - {x} == g.socks - {x};
  }

  lemma DrainClosingInv(g: Graph, x: nat)
    requires Inv(g) && x in g.socks && g.socks[x].local && g.socks[x].closing
    ensures Inv(Step(g, Drain(x)))
  {
    DrainIsClose(g, x);
    ClosedInv(g, x);
  }

  lemma CloseStepInv(g: Graph, op: Op)
    requires Inv(g) && (op.Shut? || op.Lose?)
    ensures Inv(Step(g, op))
  {
    match op
    case Shut(x) => if x in g.socks { ClosedInv(g, x); }
    case Lose(r) => if r in g.socks && !g.socks[r].local { DisconnectedInv(g, r); }
  }

  lemma ReadyInv(g: Graph, x: nat)
    requires Inv(g)
    ensures Inv(Step(g, Ready(x)))
  {
    if Listed(g, x) {
      assert SockOk(g, x);
      TouchInv(g, x, g.socks[x].(wantRead := true));
    }
  }

  lemma PushInv(g: Graph, x: nat)
    requires Inv(g)
    ensures Inv(Step(g, Push(x)))
  {
    if Listed(g, x) {
      var s := g.socks[x].(backlog := g.socks[x].backlog + 1, wantWrite := true);
      assert Step(g, Push(x)) == SetSock(g, x, s);
      TouchInv(g, x, s);
    } else {
      assert Step(g, Push(x)) == g;
    }
  }

  lemma DrainInv(g: Graph, x: nat)
    requires Inv(g)
    ensures Inv(Step(g, Drain(x)))
  {
    if x in g.socks && g.socks[x].local && g.socks[x].closing {
      DrainClosingInv(g, x);
    } else if x in g.socks && g.socks[x].local && g.socks[x].backlog > 0 && g.socks[x].peer.Some? {
      TouchInv(g, x, g.socks[x].(backlog := 0, wantWrite := false));
    }
  }

  lemma StepInv(g: Graph, op: Op)
    requires Inv(g)
    ensures Inv(Step(g, op))
  {
    match op
    case Create(x) => if x !in g.socks { CreateInv(g, x); }
    case Link(x, r, rid, t) =>
      if Listed(g, x) && g.socks[x].peer.None? && r !in g.socks && r != x { LinkInv(g, x, r, rid, t); }
    case Pair(x, y) =>
      if Listed(g, x) && Listed(g, y) && x != y && g.socks[x].peer.None? && g.socks[y].peer.None? { PairInv(g, x, y); }
    case Shut(_) => CloseStepInv(g, op);
    case Lose(_) => CloseStepInv(g, op);
    case Ready(x) => ReadyInv(g, x);
    case Push(x) => PushInv(g, x);
    case Drain(x) => DrainInv(g, x);
  }

  // ---- what becomes of a closed socket ----

  /** A local socket with packets to write stays, on the closing list and without a peer, to write them. */
  predicate Lingers(s: Sock) { s.local && !s.closing && s.backlog > 0 }

  ghost predicate Fate(g: Graph, g': Graph, y: nat)
    requires y in g.socks
  {
    if Lingers(g.socks[y]) then
      && y in g'.socks && y in g'.closing && y !in g'.listed
      && g'.socks[y] == g.socks[y].(peer := None, closing := true, id := 0, wantRead := false)
    else y !in g'.socks && y !in g'.listed && y !in g'.closing && forall t :: y !in Hooks(g', t)
  }

  /** The CLSE a socket sends when it is closed: a remote one tells its transport, a local one nobody. */
  function Tells(s: Sock): seq<(nat, nat)> {
    if s.local || s.transport.None? then [] else [(s.transport.value, s.id)]
  }

  lemma RetireFate(g: Graph, x: nat)
    requires ListsOk(g) && x in g.socks
    ensures Fate(g, Retire(g, x), x) && Retire(g, x).clse == g.clse + Tells(g.socks[x])
  {
    RetireLists(g, x);
    WithoutDistinct(g.listed, x);
    WithoutDistinct(g.closing, x);
  }

  lemma FateStays(g: Graph, g1: Graph, x: nat, y: nat)
    requires x in g1.socks && x != y && y in g.socks && Fate(g, g1, y)
    ensures Fate(g, Retire(g1, x), y)
  {
    RetireOthers(g1, x, y);
  }

  /**
   * Closing x closes x and its peer, each according to its backlog, tells each one's transport
   * once, the peer's first, and touches no other socket.
   */
  lemma CloseFates(g: Graph, x: nat)
    requires Inv(g) && x in g.socks
    ensures SockOk(g, x)
    ensures var p, g' := g.socks[x].peer, Closed(g, x);
      && Fate(g, g', x) && (p.Some? ==> Fate(g, g', p.value))
      && g'.clse == g.clse + (if p.Some? then Tells(g.socks[p.value]) else []) + Tells(g.socks[x])
      && forall y :: y in g.socks && y != x && p != Some(y) ==> y in g'.socks && g'.socks[y] == g.socks[y]
  {
    assert SockOk(g, x);
    var p, g' := g.socks[x].peer, Closed(g, x);
    forall y | y in g.socks && y != x && p != Some(y) ensures y in g'.socks && g'.socks[y] == g.socks[y] {
      OtherKept(g, x, y);
    }
    if p.Some? {
      var g1 := Retire(g, p.value);
      RetireFate(g, p.value);
      RetireLists(g, p.value);
      RetireOthers(g, p.value, x);
      RetireFate(g1, x);
      FateStays(g, g1, x, p.value);
    } else {
      RetireFate(g, x);
      assert g.clse + [] == g.clse;
    }
  }

  /** Losing its transport, a remote socket goes without a CLSE; its peer is closed as always. */
  lemma DisconnectFates(g: Graph, r: nat)
    requires Inv(g) && r in g.socks && !g.socks[r].local
    ensures SockOk(g, r)
    ensures var p, g' := g.socks[r].peer, Disconnected(g, r);
      && Fate(g, g', r) && (p.Some? ==> Fate(g, g', p.value))
      && g'.clse == g.clse
      && forall y :: y in g.socks && y != r && p != Some(y) ==> y in g'.socks && g'.socks[y] == g.socks[y]
  {
    CloseFates(g, r);
    DisconnectedIsClosed(g, r);
    DisconnectSilent(g, r);
    FateButClse(g, Closed(g, r), Disconnected(g, r), r);
    if g.socks[r].peer.Some? { FateButClse(g, Closed(g, r), Disconnected(g, r), g.socks[r].peer.value); }
  }

  lemma DisconnectSilent(g: Graph, r: nat)
    requires r in g.socks && !g.socks[r].local && SockOk(g, r)
    ensures Disconnected(g, r).clse == g.clse
  {
  }

  lemma FateButClse(g: Graph, g1: Graph, g2: Graph, y: nat)
    requires y in g.socks && Fate(g, g1, y) && g2 == g1.(clse := g2.clse)
    ensures Fate(g, g2, y)
  {
    forall t ensures Hooks(g2, t) == Hooks(g1, t) {}
  }

  /** Creating, linking and pairing do what they are for. */
  lemma SetupTakesEffect(g: Graph, x: nat, y: nat, rid: nat, t: nat)
    requires Inv(g)
    ensures x !in g.socks ==>
      var g' := Step(g, Create(x));
      g'.listed == g.listed + [x] && x in g'.socks && g'.socks[x].id == g.nextId && g'.nextId == g.nextId + 1 && g'.socks[x].peer.None?
    ensures Listed(g, x) && g.socks[x].peer.None? && y !in g.socks && y != x ==>
      var g' := Step(g, Link(x, y, rid, t));
      && g'.socks[x].peer == Some(y) && g'.socks[x].wantRead && y in Hooks(g', t)
      && !g'.socks[y].local && g'.socks[y].peer == Some(x) && g'.socks[y].id == rid && g'.socks[y].transport == Some(t)
    ensures Listed(g, x) && Listed(g, y) && x != y && g.socks[x].peer.None? && g.socks[y].peer.None? ==>
      var g' := Step(g, Pair(x, y));
      g'.socks[x].peer == Some(y) && g'.socks[y].peer == Some(x)
  {
  }

  /** Arming, queueing and draining do what they are for. */
  lemma EventsTakeEffect(g: Graph, x: nat)
    requires Inv(g) && Listed(g, x)
    ensures Step(g, Ready(x)).socks[x].wantRead
    ensures Step(g, Push(x)).socks[x].backlog == g.socks[x].backlog + 1 && Step(g, Push(x)).socks[x].wantWrite
    ensures g.socks[x].peer.Some? ==> Step(g, Drain(x)).socks[x].backlog == 0 && !Step(g, Drain(x)).socks[x].wantWrite
  {
    assert SockOk(g, x);
  }

  // ---- a backlog that someone will acknowledge ----

  /** A listed socket with a backlog has a peer, which the write event tells when it has drained. */
  ghost predicate Peered(g: Graph) {
    forall x :: x in g.socks && g.socks[x].local && !g.socks[x].closing && g.socks[x].backlog > 0 ==>
      g.socks[x].peer.Some?
  }

  /** local_socket_enqueue on a socket without a peer, which nothing in it rules out. */
  predicate Orphans(g: Graph, op: Op) {
    op.Push? && Listed(g, op.x) && g.socks[op.x].peer.None?
  }

  lemma ClosedPeered(g: Graph, x: nat)
    requires Inv(g) && Peered(g) && x in g.socks
    ensures SockOk(g, x) && Peered(Closed(g, x))
  {
    ClosedLists(g, x);
    var g' := Closed(g, x);
    forall y | y in g'.socks && g'.socks[y].local && !g'.socks[y].closing && g'.socks[y].backlog > 0
      ensures g'.socks[y].peer.Some?
    {
      ClosedOnly(g, x, y);
      if y == x || g.socks[x].peer == Some(y) { ClosedPair(g, x, y); } else { OtherKept(g, x, y); }
    }
  }

  lemma DisconnectedPeered(g: Graph, r: nat)
    requires Inv(g) && Peered(g) && r in g.socks && !g.socks[r].local
    ensures SockOk(g, r) && Peered(Disconnected(g, r))
  {
    ClosedPeered(g, r);
    DisconnectedIsClosed(g, r);
  }

  lemma DrainPeered(g: Graph, x: nat)
    requires Inv(g) && Peered(g)
    ensures Peered(Step(g, Drain(x)))
  {
    if x in g.socks && g.socks[x].local && g.socks[x].closing { DrainIsClose(g, x); ClosedPeered(g, x); }
  }

  lemma SetupPeered(g: Graph, op: Op)
    requires Inv(g) && Peered(g) && (op.Create? || op.Link? || op.Ready?)
    ensures Peered(Step(g, op))
  {
  }

  lemma PairPeered(g: Graph, x: nat, y: nat)
    requires Inv(g) && Peered(g)
    ensures Peered(Step(g, Pair(x, y)))
  {
  }

  lemma PushPeered(g: Graph, x: nat)
    requires Inv(g) && Peered(g)
    ensures Peered(Step(g, Push(x))) <==> !Orphans(g, Push(x))
  {
    if Orphans(g, Push(x)) {
      assert x in Step(g, Push(x)).socks && Step(g, Push(x)).socks[x].backlog > 0;
    }
  }

  lemma ClosePeered(g: Graph, op: Op)
    requires Inv(g) && Peered(g) && (op.Shut? || op.Lose?)
    ensures Peered(Step(g, op))
  {
    match op
    case Shut(x) => if x in g.socks { ClosedPeered(g, x); }
    case Lose(r) => if r in g.socks && !g.socks[r].local { DisconnectedPeered(g, r); }
  }

  /** Every operation keeps backlogs peered, except exactly a queueing on a socket without a peer. */
  lemma StepPeered(g: Graph, op: Op)
    requires Inv(g) && Peered(g)
    ensures Peered(Step(g, op)) <==> !Orphans(g, op)
  {
    match op
    case Pair(x, y) => PairPeered(g, x, y);
    case Push(x) => PushPeered(g, x);
    case Drain(x) => DrainPeered(g, x);
    case Shut(_) => ClosePeered(g, op);
    case Lose(_) => ClosePeered(g, op);
    case _ => SetupPeered(g, op);
  }

  function Run(ops: seq<Op>): Graph {
    if ops == [] then EMPTY else Step(Run(ops[..|ops| - 1]), ops[|ops| - 1])
  }

  /** The socket graph invariant holds after every sequence of operations. */
  lemma {:induction false} RunInv(ops: seq<Op>)
    ensures Inv(Run(ops))
  {
    if ops != [] {
      RunInv(ops[..|ops| - 1]);
      StepInv(Run(ops[..|ops| - 1]), ops[|ops| - 1]);
    }
  }

  lemma RunNext(ops: seq<Op>, k: nat)
    requires k < |ops|
    ensures Run(ops[..k + 1]) == Step(Run(ops[..k]), ops[k])
  {
    assert ops[..k + 1][..k] == ops[..k];
  }

  lemma {:induction false} PeeredWhile(ops: seq<Op>, k: nat)
    requires k <= |ops| && forall j :: 0 <= j < k ==> !Orphans(Run(ops[..j]), ops[j])
    ensures Peered(Run(ops[..k]))
  {
    if k > 0 {
      PeeredWhile(ops, k - 1);
      RunInv(ops[..k - 1]);
      StepPeered(Run(ops[..k - 1]), ops[k - 1]);
      RunNext(ops, k - 1);
    }
  }

  ghost predicate AlwaysPeered(ops: seq<Op>) {
    forall k :: 0 <= k <= |ops| ==> Peered(Run(ops[..k]))
  }

  ghost predicate NeverOrphans(ops: seq<Op>) {
    forall k :: 0 <= k < |ops| ==> !Orphans(Run(ops[..k]), ops[k])
  }

  /** Backlogs stay peered throughout a run if and only if nothing is queued on a peerless socket. */
  lemma RunPeered(ops: seq<Op>)
    ensures AlwaysPeered(ops) <==> NeverOrphans(ops)
  {
    if NeverOrphans(ops) {
      forall k | 0 <= k <= |ops| ensures Peered(Run(ops[..k])) { PeeredWhile(ops, k); }
    }
    if AlwaysPeered(ops) {
      forall k | 0 <= k < |ops| ensures !Orphans(Run(ops[..k]), ops[k]) {
        assert Peered(Run(ops[..k])) && Peered(Run(ops[..k + 1]));
        RunInv(ops[..k]);
        RunNext(ops, k);
        StepPeered(Run(ops[..k]), ops[k]);
      }
    }
  }

  // ---- the table, updated in place ----

  /** A socket that close_all_sockets(t) must close: on t itself, or with its peer on t. */
  predicate On(g: Graph, x: nat, t: nat)
    requires x in g.socks
  {
    || g.socks[x].transport == Some(t)
    || (g.socks[x].peer.Some? && g.socks[x].peer.value in g.socks
        && g.socks[g.socks[x].peer.value].transport == Some(t))
  }

  /** Every socket that has nothing to do with t is as it was. */
  ghost predicate SparesOthers(g: Graph, g': Graph, t: nat) {
    forall y :: y in g.socks && !On(g, y, t) ==> y in g'.socks && g'.socks[y] == g.socks[y] && !On(g', y, t)
  }

  lemma ClosedSpares(g: Graph, x: nat, t: nat)
    requires Inv(g) && x in g.socks && On(g, x, t)
    ensures SockOk(g, x) && SparesOthers(g, Closed(g, x), t)
  {
    assert SockOk(g, x);
    var g' := Closed(g, x);
    forall y | y in g.socks && !On(g, y, t)
      ensures y in g'.socks && g'.socks[y] == g.socks[y] && !On(g', y, t)
    {
      assert SockOk(g, y);
      var p := g.socks[x].peer;
      if p.Some? {
        assert SockOk(g, p.value);
        RetireOthers(g, p.value, x);
        RetireOthers(g, p.value, y);
        RetireOthers(Retire(g, p.value), x, y);
      } else {
        RetireOthers(g, x, y);
      }
      if g.socks[y].peer.Some? {
        PeerSurvives(g, x, y);
        OtherKept(g, x, g.socks[y].peer.value);
      }
    }
  }

  lemma OtherKept(g: Graph, x: nat, z: nat)
    requires Inv(g) && x in g.socks && z in g.socks && z != x && g.socks[x].peer != Some(z)
    ensures SockOk(g, x) && z in Closed(g, x).socks && Closed(g, x).socks[z] == g.socks[z]
  {
    assert SockOk(g, x);
    var p := g.socks[x].peer;
    if p.Some? {
      RetireOthers(g, p.value, x);
      RetireOthers(g, p.value, z);
      RetireOthers(Retire(g, p.value), x, z);
    } else {
      RetireOthers(g, x, z);
    }
  }

  lemma ClosedShrinks(g: Graph, x: nat)
    requires Inv(g) && x in g.listed
    ensures SockOk(g, x) && |Closed(g, x).listed| < |g.listed|
  {
    assert SockOk(g, x);
    if g.socks[x].peer.Some? { RetireOthers(g, g.socks[x].peer.value, x); }
  }

  class SocketTable {
    var socks: map<nat, Sock>
    var listed: seq<nat>
    var closing: seq<nat>
    var hooks: map<nat, seq<nat>>
    var nextId: nat
    var clse: seq<(nat, nat)>

    function Value(): Graph
      reads this
    {
      Graph(socks, listed, closing, hooks, nextId, clse)
    }

    constructor ()
      ensures Value() == EMPTY
    {
      socks, listed, closing, hooks, nextId, clse := map[], [], [], map[], 1, [];
    }

    /** find_local_socket */
    method FindLocal(id: nat) returns (x: Option<nat>)
      requires Inv(Value())
      ensures x.Some? ==> x.value in listed && x.value in socks && socks[x.value].id == id
      ensures x.Some? ==> forall y :: y in listed && y != x.value ==> socks[y].id != id
      ensures x.None? <==> forall y :: y in listed ==> socks[y].id != id
    {
      var i := 0;
      while i < |listed|
        invariant 0 <= i <= |listed|
        invariant forall j :: 0 <= j < i ==> socks[listed[j]].id != id
      {
        if socks[listed[i]].id == id { return Some(listed[i]); }
        i := i + 1;
      }
      x := None;
    }

    /**
     * s->close(s) for local and remote sockets.  The two close functions call each other
     * through the peer pointer; the recursion ends because the back pointer is cut first.
     */
    method Close(x: nat)
      requires x in socks
      requires socks[x].peer.Some? ==>
        socks[x].peer.value in socks && socks[x].peer.value != x && socks[socks[x].peer.value].peer == Some(x)
      modifies this
      ensures Value() == Closed(old(Value()), x)
      decreases socks[x].peer.Some?
    {
      if socks[x].peer.Some? {
        var p := socks[x].peer.value;
        socks := socks[p := socks[p].(peer := None)];
        ghost var cut := Value();
        Close(p);
        CutFirst(old(Value()), cut, p);
        RetireOthers(old(Value()), p, x);
      }
      var s := socks[x];
      if !s.local {
        if s.transport.Some? {
          clse := clse + [(s.transport.value, s.id)];
          var h := if s.transport.value in hooks then hooks[s.transport.value] else [];
          hooks := hooks[s.transport.value := Without(h, x)];
        }
        socks := socks - {x};
      } else if s.closing || s.backlog == 0 {
        socks := socks - {x};
        listed, closing := Without(listed, x), Without(closing, x);
      } else {
        socks := socks[x := s.(peer := None, closing := true, id := 0, wantRead := false)];
        listed, closing := Without(listed, x), Without(closing, x) + [x];
      }
    }

    /** close_all_sockets: scan the open list, close the first match, start over. */
    method CloseAll(t: nat)
      requires Inv(Value())
      modifies this
      ensures Inv(Value())
      ensures forall x :: x in listed ==> !On(Value(), x, t)
      ensures SparesOthers(old(Value()), Value(), t)
    {
      var found := true;
      while found
        invariant Inv(Value()) && SparesOthers(old(Value()), Value(), t)
        invariant !found ==> forall x :: x in listed ==> !On(Value(), x, t)
        decreases |listed|, found
      {
        var i := 0;
        while i < |listed| && !On(Value(), listed[i], t)
          invariant 0 <= i <= |listed|
          invariant forall j :: 0 <= j < i ==> !On(Value(), listed[j], t)
        {
          i := i + 1;
        }
        if i == |listed| {
          found := false;
        } else {
          ClosedInv(Value(), listed[i]);
          ClosedShrinks(Value(), listed[i]);
          ClosedSpares(Value(), listed[i], t);
          Close(listed[i]);
        }
      }
    }

    /** remote_socket_disconnect, the callback on a transport's disconnect list. */
    method Disconnect(r: nat)
      requires Inv(Value()) && r in socks && !socks[r].local
      modifies this
      ensures Value() == Disconnected(old(Value()), r) && Inv(Value())
    {
      DisconnectedInv(Value(), r);
      var t := socks[r].transport.value;
      if socks[r].peer.Some? {
        var p := socks[r].peer.value;
        socks := socks[p := socks[p].(peer := None)];
        ghost var cut := Value();
        Close(p);
        CutFirst(old(Value()), cut, p);
        RetireOthers(old(Value()), p, r);
      }
      var h := if t in hooks then hooks[t] else [];
      hooks := hooks[t := Without(h, r)];
      socks := socks - {r};
    }

    /** One round of run_transport_disconnects: `next` is read before the call. */
    method CallHead(t: nat, dis: nat) returns (next: Option<nat>)
      requires Inv(Value()) && Hooks(Value(), t) != [] && dis == Hooks(Value(), t)[0]
      modifies this
      ensures Inv(Value()) && Hooks(Value(), t) == old(Hooks(Value(), t))[1..]
      ensures next == if Hooks(Value(), t) == [] then None else Some(Hooks(Value(), t)[0])
    {
      next := if |hooks[t]| > 1 then Some(hooks[t][1]) else None;
      HookHead(Value(), t);
      Disconnect(dis);
    }

    /** run_transport_disconnects: each callback unlinks itself. */
    method RunDisconnects(t: nat) returns (called: seq<nat>)
      requires Inv(Value())
      modifies this
      ensures Inv(Value())
      ensures called == old(Hooks(Value(), t))
      ensures Hooks(Value(), t) == []
    {
      called := [];
      var dis := if t in hooks && hooks[t] != [] then Some(hooks[t][0]) else None;
      while dis.Some?
        invariant Inv(Value())
        invariant called + Hooks(Value(), t) == old(Hooks(Value(), t))
        invariant dis == if Hooks(Value(), t) == [] then None else Some(Hooks(Value(), t)[0])
        decreases |Hooks(Value(), t)|
      {
        called := called + [dis.value];
        dis := CallHead(t, dis.value);
      }
    }
  }

  /** Cutting the back pointer first does not change what retiring the peer leaves. */
  lemma CutFirst(g: Graph, cut: Graph, p: nat)
    requires p in g.socks && cut == SetSock(g, p, g.socks[p].(peer := None))
    ensures Retire(cut, p) == Retire(g, p)
  {
    assert cut.socks - {p} == g.socks - {p};
  }

  lemma HookHead(g: Graph, t: nat)
    requires Inv(g) && Hooks(g, t) != []
    ensures var r := Hooks(g, t)[0];
      && r in g.socks && !g.socks[r].local && SockOk(g, r)
      && Hooks(Disconnected(g, r), t) == Hooks(g, t)[1..]
  {
    var r := Hooks(g, t)[0];
    assert SockOk(g, r);
    UnhookedHead(g, t, r);
  }

  lemma UnhookedHead(g: Graph, t: nat, r: nat)
    requires Hooks(g, t) != [] && r == Hooks(g, t)[0] && Distinct(Hooks(g, t))
    requires r in g.socks && g.socks[r].transport == Some(t)
    requires g.socks[r].peer.Some? ==> g.socks[r].peer.value in g.socks && g.socks[g.socks[r].peer.value].local
    requires g.socks[r].peer.Some? ==> g.socks[r].peer.value != r
    ensures Hooks(Disconnected(g, r), t) == Hooks(g, t)[1..]
  {
    WithoutHead(Hooks(g, t));
    if g.socks[r].peer.Some? { assert Retire(g, g.socks[r].peer.value).hooks == g.hooks; }
  }
}
