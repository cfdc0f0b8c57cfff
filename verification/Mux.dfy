/**
 * Two endpoints, any number of streams multiplexed over one transport.
 *
 * Packets carry only the numeric ids of adbd (arg0, arg1); sockets are found by id.
 * The `key` of a socket or packet names the stream it belongs to and is a history
 * variable: no decision looks at it.  Lift shows that id lookup never crosses streams,
 * so that every step of the system is a step of exactly one stream of module Stream,
 * and the stream invariant then holds for all streams in every run.
 */
module Mux {
  import opened Common
  import opened StreamSocket
  import Stream

  /** The stream opened by endpoint A (or B) with local id `id`. */
  datatype Key = Key(byA: bool, id: nat)

  datatype Packet = Packet(key: Key, to: nat, msg: Msg)

  datatype Slot = Slot(key: Key, end: End)

  /** `idOf` records which id this endpoint gave to each stream; it is a history variable. */
  datatype Endpoint = Endpoint(nextId: nat, slots: map<nat, Slot>, idOf: map<Key, nat>)

  datatype Chan = Chan(past: seq<Packet>, flight: seq<Packet>)

  datatype Net = Net(a: Endpoint, b: Endpoint, ab: Chan, ba: Chan)

  const INIT := Net(Endpoint(1, map[], map[]), Endpoint(1, map[], map[]), Chan([], []), Chan([], []))

  datatype Action =
    | Connect
    | Receive(accept: bool, k: nat, stop: Stop)
    | FdRead(id: nat, data: seq<byte>, eof: bool)
    | FdWrite(id: nat, k: nat, stop: Stop)
    | FdStale(id: nat, eof: bool)

  function Post(key: Key, outs: seq<Out>): (ps: seq<Packet>)
    ensures |ps| == |outs|
    ensures forall i :: 0 <= i < |outs| ==> ps[i] == Packet(key, outs[i].to, outs[i].msg)
  {
    seq(|outs|, i requires 0 <= i < |outs| => Packet(key, outs[i].to, outs[i].msg))
  }

  function SetEnd(ep: Endpoint, id: nat, e: End): Endpoint
    requires id in ep.slots
  {
    ep.(slots := ep.slots[id := ep.slots[id].(end := e)])
  }

  /** handle_packet: OPEN makes a new socket, everything else is routed by id. */
  function Handle(me: Endpoint, isA: bool, p: Packet, accept: bool, k: nat, stop: Stop): (Endpoint, seq<Packet>) {
    if p.msg.Open? then
      var key := Key(!isA, p.msg.from);
      var (e, outs) := OnMsg(Absent, me.nextId, p.msg, accept, k, stop);
      (if e.Live? then
         Endpoint(me.nextId + 1, me.slots[me.nextId := Slot(key, e)], me.idOf[key := me.nextId])
       else me,
       Post(key, outs))
    else if p.to in me.slots then
      var slot := me.slots[p.to];
      var (e, outs) := OnMsg(slot.end, p.to, p.msg, accept, k, stop);
      (SetEnd(me, p.to, e), Post(slot.key, outs))
    else (me, [])
  }

  /** An event of one socket's file descriptor. */
  function FdEvent(end: End, act: Action): (End, seq<Out>)
    requires act.FdRead? || act.FdWrite? || act.FdStale?
  {
    match act
    case FdRead(id, data, eof) => OnRead(end, id, data, eof)
    case FdWrite(id, k, stop) => OnWrite(end, id, k, stop)
    case FdStale(id, eof) => OnStaleRead(end, eof)
  }

  function Local(me: Endpoint, isA: bool, out: Chan, inn: Chan, act: Action): (Endpoint, Chan, Chan) {
    match act
    case Connect =>
      var key := Key(isA, me.nextId);
      (Endpoint(me.nextId + 1, me.slots[me.nextId := Slot(key, Live(FRESH))], me.idOf[key := me.nextId]),
       out.(flight := out.flight + [Packet(key, 0, Open(me.nextId))]),
       inn)
    case Receive(accept, k, stop) =>
      if inn.flight == [] then (me, out, inn) else
      var (me', ps) := Handle(me, isA, inn.flight[0], accept, k, stop);
      (me', out.(flight := out.flight + ps), Chan(inn.past + [inn.flight[0]], inn.flight[1..]))
    case _ =>
      if act.id !in me.slots then (me, out, inn) else
      var (e, outs) := FdEvent(me.slots[act.id].end, act);
      (SetEnd(me, act.id, e), out.(flight := out.flight + Post(me.slots[act.id].key, outs)), inn)
  }

  function Step(n: Net, atA: bool, act: Action): Net {
    if atA then
      var (a', ab', ba') := Local(n.a, true, n.ab, n.ba, act); Net(a', n.b, ab', ba')
    else
      var (b', ba', ab') := Local(n.b, false, n.ba, n.ab, act); Net(n.a, b', ab', ba')
  }

  datatype Move = Move(atA: bool, act: Action)

  /** The state after a run. */
  function Run(moves: seq<Move>): Net {
    if moves == [] then INIT
    else
      var last := moves[|moves| - 1];
      Step(Run(moves[..|moves| - 1]), last.atA, last.act)
  }

  // ---- the view of one stream ----

  function EndAt(ep: Endpoint, key: Key): End {
    if key in ep.idOf && ep.idOf[key] in ep.slots then ep.slots[ep.idOf[key]].end else Absent
  }

  function Proj(ps: seq<Packet>, key: Key): seq<Msg> {
    if ps == [] then []
    else (if ps[0].key == key then [ps[0].msg] else []) + Proj(ps[1..], key)
  }

  function LinkOf(c: Chan, key: Key): Stream.Link {
    Stream.Link(Proj(c.past, key), Proj(c.flight, key))
  }

  function View(n: Net, key: Key): Stream.Stream {
    if key.byA then Stream.Stream(EndAt(n.a, key), EndAt(n.b, key), LinkOf(n.ab, key), LinkOf(n.ba, key))
    else Stream.Stream(EndAt(n.b, key), EndAt(n.a, key), LinkOf(n.ba, key), LinkOf(n.ab, key))
  }

  lemma {:induction false} ProjAppend(ps: seq<Packet>, qs: seq<Packet>, key: Key)
    ensures Proj(ps + qs, key) == Proj(ps, key) + Proj(qs, key)
  {
    if ps == [] {
      assert ps + qs == qs;
    } else {
      assert (ps + qs)[1..] == ps[1..] + qs;
      ProjAppend(ps[1..], qs, key);
    }
  }

  lemma {:induction false} ProjPost(key: Key, outs: seq<Out>, key': Key)
    ensures Proj(Post(key, outs), key') == if key == key' then Stream.Msgs(outs) else []
  {
    if outs == [] {
    } else {
      assert Post(key, outs)[1..] == Post(key, outs[1..]);
      assert Stream.Msgs(outs) == [outs[0].msg] + Stream.Msgs(outs[1..]);
      ProjPost(key, outs[1..], key');
    }
  }

  lemma LinkSend(c: Chan, key: Key, outs: seq<Out>, key': Key)
    ensures LinkOf(c.(flight := c.flight + Post(key, outs)), key')
      == if key == key' then LinkOf(c, key').Send(Stream.Msgs(outs)) else LinkOf(c, key')
  {
    ProjAppend(c.flight, Post(key, outs), key');
    ProjPost(key, outs, key');
  }

  lemma LinkTake(c: Chan, key: Key)
    requires c.flight != []
    ensures var c' := Chan(c.past + [c.flight[0]], c.flight[1..]);
      if c.flight[0].key == key
      then LinkOf(c, key).flight != [] && LinkOf(c, key).flight[0] == c.flight[0].msg
           && LinkOf(c', key) == LinkOf(c, key).Take()
      else LinkOf(c', key) == LinkOf(c, key)
  {
    var p := c.flight[0];
    ProjAppend(c.past, [p], key);
    assert [p][1..] == [];
    assert Proj([p], key) == if p.key == key then [p.msg] else [];
  }

  // ---- routing ----

  /** Ids and stream names are in one-to-one correspondence at an endpoint. */
  ghost predicate IdsOk(ep: Endpoint, isA: bool) {
    && 1 <= ep.nextId
    && (forall id :: id in ep.slots ==>
          && 1 <= id < ep.nextId
          && ep.slots[id].key in ep.idOf && ep.idOf[ep.slots[id].key] == id
          && !ep.slots[id].end.Absent?
          && (ep.slots[id].key.byA == isA ==> ep.slots[id].key.id == id))
    && (forall k :: k in ep.idOf ==> ep.idOf[k] in ep.slots && ep.slots[ep.idOf[k]].key == k)
  }

  /** `other` knows stream `key` by id `to`. */
  predicate Names(other: Endpoint, key: Key, to: nat) {
    key in other.idOf && other.idOf[key] == to
  }

  ghost predicate PeersOk(ep: Endpoint, other: Endpoint) {
    forall id :: id in ep.slots && !ep.slots[id].end.Absent? && ep.slots[id].end.s.peer.Some? ==>
      Names(other, ep.slots[id].key, ep.slots[id].end.s.peer.value)
  }

  /** A packet sent by `me` names the stream correctly on both sides. */
  ghost predicate Addressed(p: Packet, me: Endpoint, isA: bool, other: Endpoint) {
    if p.msg.Open? then p.key == Key(isA, p.msg.from) && Names(me, p.key, p.msg.from)
    else
      && Names(other, p.key, p.to)
      && (p.msg.Okay? || p.msg.Wrte? ==> Names(me, p.key, p.msg.from))
  }

  ghost predicate FlightOk(ps: seq<Packet>, me: Endpoint, isA: bool, other: Endpoint) {
    forall i :: 0 <= i < |ps| ==> Addressed(ps[i], me, isA, other)
  }

  ghost predicate Half(me: Endpoint, isA: bool, other: Endpoint, out: Chan) {
    IdsOk(me, isA) && PeersOk(me, other) && FlightOk(out.flight, me, isA, other)
  }

  ghost predicate Inv(n: Net) {
    && Half(n.a, true, n.b, n.ab)
    && Half(n.b, false, n.a, n.ba)
    && (forall key :: Stream.Inv(View(n, key)))
  }

  /** Endpoints only learn new names. */
  ghost predicate Grows(ep: Endpoint, ep': Endpoint) {
    forall k, id :: Names(ep, k, id) ==> Names(ep', k, id)
  }

  /** What one socket event may send: packets to the stream's other end, correctly signed. */
  ghost predicate OutsOk(outs: seq<Out>, key: Key, id: nat, other: Endpoint) {
    forall i :: 0 <= i < |outs| ==>
      && !outs[i].msg.Open?
      && Names(other, key, outs[i].to)
      && (outs[i].msg.Okay? || outs[i].msg.Wrte? ==> outs[i].msg.from == id)
  }

  ghost predicate PeerOk(e: End, key: Key, other: Endpoint) {
    !e.Absent? && e.s.peer.Some? ==> Names(other, key, e.s.peer.value)
  }

  lemma MsgRouting(e: End, id: nat, m: Msg, accept: bool, k: nat, stop: Stop, key: Key, other: Endpoint)
    requires PeerOk(e, key, other)
    requires !m.Clse? ==> Names(other, key, m.from)
    ensures var (e', outs) := OnMsg(e, id, m, accept, k, stop);
      PeerOk(e', key, other) && OutsOk(outs, key, id, other) && (e'.Absent? ==> e.Absent?)
  {
  }

  lemma FdRouting(e: End, act: Action, key: Key, other: Endpoint)
    requires act.FdRead? || act.FdWrite? || act.FdStale?
    requires PeerOk(e, key, other)
    ensures var (e', outs) := FdEvent(e, act);
      PeerOk(e', key, other) && OutsOk(outs, key, act.id, other) && (e'.Absent? ==> e.Absent?)
  {
  }

  lemma SendRouted(out: Chan, ps: seq<Packet>, me: Endpoint, me': Endpoint, isA: bool, other: Endpoint)
    requires FlightOk(out.flight, me, isA, other) && Grows(me, me') && FlightOk(ps, me', isA, other)
    ensures FlightOk(out.flight + ps, me', isA, other)
  {
    forall i | 0 <= i < |out.flight| ensures Addressed(out.flight[i], me', isA, other) {
      var p := out.flight[i];
      assert Addressed(p, me, isA, other);
    }
  }

  lemma PostRouted(key: Key, outs: seq<Out>, id: nat, me: Endpoint, isA: bool, other: Endpoint)
    requires OutsOk(outs, key, id, other) && Names(me, key, id)
    ensures FlightOk(Post(key, outs), me, isA, other)
  {
  }

  /** The other endpoint's half survives this endpoint learning names and taking a packet. */
  lemma OtherHalf(me: Endpoint, me': Endpoint, isA: bool, other: Endpoint, inn: Chan, inn': Chan)
    requires Half(other, !isA, me, inn) && Grows(me, me')
    requires inn' == inn || (inn.flight != [] && inn'.flight == inn.flight[1..])
    ensures Half(other, !isA, me', inn')
  {
    forall i | 0 <= i < |inn'.flight| ensures Addressed(inn'.flight[i], other, !isA, me') {
      var j := if inn' == inn then i else i + 1;
      assert Addressed(inn.flight[j], other, !isA, me);
    }
    forall id | id in other.slots && !other.slots[id].end.Absent? && other.slots[id].end.s.peer.Some?
      ensures Names(me', other.slots[id].key, other.slots[id].end.s.peer.value)
    {
    }
  }

  /** Adding a socket for a stream this endpoint does not know yet. */
  lemma Learn(me: Endpoint, isA: bool, key: Key, e: End, other: Endpoint)
    requires IdsOk(me, isA) && PeersOk(me, other) && key !in me.idOf && !e.Absent? && PeerOk(e, key, other)
    requires key.byA == isA ==> key.id == me.nextId
    ensures var me' := Endpoint(me.nextId + 1, me.slots[me.nextId := Slot(key, e)], me.idOf[key := me.nextId]);
      IdsOk(me', isA) && PeersOk(me', other) && Grows(me, me') && Names(me', key, me.nextId)
  {
  }

  /** Changing one socket in place. */
  lemma Update(me: Endpoint, isA: bool, id: nat, e: End, other: Endpoint)
    requires IdsOk(me, isA) && PeersOk(me, other) && id in me.slots
    requires !e.Absent? && PeerOk(e, me.slots[id].key, other)
    ensures var me' := SetEnd(me, id, e);
      IdsOk(me', isA) && PeersOk(me', other) && Grows(me, me') && Names(me', me.slots[id].key, id)
  {
  }

  /** The half of the system that acts stays correctly routed. */
  lemma ActingHalf(me: Endpoint, isA: bool, other: Endpoint, out: Chan, inn: Chan, act: Action)
    requires Half(me, isA, other, out) && Half(other, !isA, me, inn)
    requires act.Connect? ==> Key(isA, me.nextId) !in me.idOf
    requires act.Receive? && inn.flight != [] && inn.flight[0].msg.Open? ==> inn.flight[0].key !in me.idOf
    ensures var (me', out', inn') := Local(me, isA, out, inn, act);
      && Half(me', isA, other, out') && Grows(me, me')
      && (inn' == inn || (inn.flight != [] && inn'.flight == inn.flight[1..]))
  {
    match act {
      case Connect =>
        var key := Key(isA, me.nextId);
        Learn(me, isA, key, Live(FRESH), other);
        var me' := Local(me, isA, out, inn, act).0;
        SendRouted(out, [Packet(key, 0, Open(me.nextId))], me, me', isA, other);
      case Receive(accept, k, stop) =>
        if inn.flight != [] { ReceivingHalf(me, isA, other, out, inn, accept, k, stop); }
      case _ =>
        if act.id in me.slots {
          var slot := me.slots[act.id];
          FdRouting(slot.end, act, slot.key, other);
          var (e, outs) := FdEvent(slot.end, act);
          Update(me, isA, act.id, e, other);
          PostRouted(slot.key, outs, act.id, SetEnd(me, act.id, e), isA, other);
          SendRouted(out, Post(slot.key, outs), me, SetEnd(me, act.id, e), isA, other);
        }
    }
  }

  lemma ReceivingHalf(me: Endpoint, isA: bool, other: Endpoint, out: Chan, inn: Chan, accept: bool, k: nat, stop: Stop)
    requires Half(me, isA, other, out) && Half(other, !isA, me, inn) && inn.flight != []
    requires inn.flight[0].msg.Open? ==> inn.flight[0].key !in me.idOf
    ensures var (me', ps) := Handle(me, isA, inn.flight[0], accept, k, stop);
      Half(me', isA, other, out.(flight := out.flight + ps)) && Grows(me, me')
  {
    var p := inn.flight[0];
    assert Addressed(p, other, !isA, me);
    var (me', ps) := Handle(me, isA, p, accept, k, stop);
    if p.msg.Open? {
      var (e, outs) := OnMsg(Absent, me.nextId, p.msg, accept, k, stop);
      MsgRouting(Absent, me.nextId, p.msg, accept, k, stop, p.key, other);
      if e.Live? {
        Learn(me, isA, p.key, e, other);
        PostRouted(p.key, outs, me.nextId, me', isA, other);
      }
    } else {
      var slot := me.slots[p.to];
      assert slot.key == p.key;
      var (e, outs) := OnMsg(slot.end, p.to, p.msg, accept, k, stop);
      MsgRouting(slot.end, p.to, p.msg, accept, k, stop, p.key, other);
      Update(me, isA, p.to, e, other);
      PostRouted(p.key, outs, p.to, me', isA, other);
    }
    SendRouted(out, ps, me, me', isA, other);
  }

  // ---- every step is a step of one stream ----

  /** The event that an action means for stream `key`, if it concerns that stream. */
  function EventFor(me: Endpoint, isA: bool, inn: Chan, act: Action, key: Key): Option<Stream.Event> {
    match act
    case Connect =>
      if key == Key(isA, me.nextId) then Some(Stream.Start(me.nextId)) else None
    case Receive(accept, k, stop) =>
      if inn.flight != [] && inn.flight[0].key == key then
        Some(Stream.Deliver(if inn.flight[0].msg.Open? then me.nextId else inn.flight[0].to, accept, k, stop))
      else None
    case FdRead(id, data, eof) =>
      if Names(me, key, id) then Some(Stream.Read(id, data, eof)) else None
    case FdWrite(id, k, stop) =>
      if Names(me, key, id) then Some(Stream.Write(id, k, stop)) else None
    case FdStale(id, eof) =>
      if Names(me, key, id) then Some(Stream.StaleRead(eof)) else None
  }

  ghost predicate Simulates(me: Endpoint, isA: bool, out: Chan, inn: Chan, act: Action, key: Key) {
    var (me', out', inn') := Local(me, isA, out, inn, act);
    var ev := EventFor(me, isA, inn, act, key);
    (EndAt(me', key), LinkOf(out', key), LinkOf(inn', key)) ==
      if ev.None? then (EndAt(me, key), LinkOf(out, key), LinkOf(inn, key))
      else Stream.Act(EndAt(me, key), LinkOf(out, key), LinkOf(inn, key), ev.value)
  }

  /** Changing one socket and sending for it, as each stream sees it. */
  lemma OneSocket(me: Endpoint, isA: bool, out: Chan, id: nat, e: End, outs: seq<Out>, key: Key)
    requires IdsOk(me, isA) && id in me.slots
    ensures var mine := me.slots[id].key == key;
      && (mine <==> Names(me, key, id)) && (mine ==> EndAt(me, key) == me.slots[id].end)
      && EndAt(SetEnd(me, id, e), key) == (if mine then e else EndAt(me, key))
      && LinkOf(out.(flight := out.flight + Post(me.slots[id].key, outs)), key)
        == (if mine then LinkOf(out, key).Send(Stream.Msgs(outs)) else LinkOf(out, key))
  {
    LinkSend(out, me.slots[id].key, outs, key);
  }

  lemma LiftFd(me: Endpoint, isA: bool, out: Chan, inn: Chan, act: Action, key: Key)
    requires IdsOk(me, isA) && (act.FdRead? || act.FdWrite? || act.FdStale?)
    ensures Simulates(me, isA, out, inn, act, key)
  {
    if act.id in me.slots {
      var (e, outs) := FdEvent(me.slots[act.id].end, act);
      OneSocket(me, isA, out, act.id, e, outs, key);
    }
  }

  lemma LiftConnect(me: Endpoint, isA: bool, out: Chan, inn: Chan, key: Key)
    requires IdsOk(me, isA)
    requires Key(isA, me.nextId) !in me.idOf
    requires LinkOf(out, Key(isA, me.nextId)) == LinkOf(inn, Key(isA, me.nextId)) == Stream.Link([], [])
    ensures Simulates(me, isA, out, inn, Connect, key)
  {
    var key0 := Key(isA, me.nextId);
    var outs := [Out(0, Open(me.nextId))];
    assert Post(key0, outs) == [Packet(key0, 0, Open(me.nextId))];
    assert Stream.Msgs(outs) == [Open(me.nextId)];
    LinkSend(out, key0, outs, key);
  }

  lemma LiftOpen(me: Endpoint, isA: bool, other: Endpoint, out: Chan, inn: Chan,
                 accept: bool, k: nat, stop: Stop, key: Key)
    requires IdsOk(me, isA) && inn.flight != [] && inn.flight[0].msg.Open?
    requires Addressed(inn.flight[0], other, !isA, me) && inn.flight[0].key !in me.idOf
    ensures Simulates(me, isA, out, inn, Receive(accept, k, stop), key)
  {
    var p := inn.flight[0];
    LinkTake(inn, key);
    LinkSend(out, p.key, OnMsg(Absent, me.nextId, p.msg, accept, k, stop).1, key);
  }

  lemma LiftRouted(me: Endpoint, isA: bool, other: Endpoint, out: Chan, inn: Chan,
                   accept: bool, k: nat, stop: Stop, key: Key)
    requires IdsOk(me, isA) && inn.flight != [] && !inn.flight[0].msg.Open?
    requires Addressed(inn.flight[0], other, !isA, me)
    ensures Simulates(me, isA, out, inn, Receive(accept, k, stop), key)
  {
    var p := inn.flight[0];
    LinkTake(inn, key);
    var (e, outs) := OnMsg(me.slots[p.to].end, p.to, p.msg, accept, k, stop);
    OneSocket(me, isA, out, p.to, e, outs, key);
    assert me.slots[p.to].key == p.key;
  }

  lemma LiftReceive(me: Endpoint, isA: bool, other: Endpoint, out: Chan, inn: Chan,
                    accept: bool, k: nat, stop: Stop, key: Key)
    requires IdsOk(me, isA) && FlightOk(inn.flight, other, !isA, me)
    requires inn.flight != [] && inn.flight[0].msg.Open? ==> inn.flight[0].key !in me.idOf
    ensures Simulates(me, isA, out, inn, Receive(accept, k, stop), key)
  {
    if inn.flight != [] {
      assert Addressed(inn.flight[0], other, !isA, me);
      if inn.flight[0].msg.Open? {
        LiftOpen(me, isA, other, out, inn, accept, k, stop, key);
      } else {
        LiftRouted(me, isA, other, out, inn, accept, k, stop, key);
      }
    }
  }

  /** A stream nobody has opened has no trace anywhere. */
  lemma UnopenedIsIdle(v: Stream.Stream)
    requires Stream.Inv(v) && v.x.Absent?
    ensures v == Stream.IDLE
  {
  }

  /** The endpoint that acts and its channels, as one half of the system. */
  lemma Preconditions(n: Net, atA: bool, act: Action)
    requires Inv(n)
    ensures var (me, inn, out) := if atA then (n.a, n.ba, n.ab) else (n.b, n.ab, n.ba);
      && (act.Connect? ==>
            var key := Key(atA, me.nextId);
            && key !in me.idOf
            && LinkOf(out, key) == LinkOf(inn, key) == Stream.Link([], []))
      && (act.Receive? && inn.flight != [] && inn.flight[0].msg.Open? ==> inn.flight[0].key !in me.idOf)
  {
    var (me, inn, other) := if atA then (n.a, n.ba, n.b) else (n.b, n.ab, n.a);
    if act.Connect? {
      var key := Key(atA, me.nextId);
      assert key !in me.idOf;
      UnopenedIsIdle(View(n, key));
    }
    if act.Receive? && inn.flight != [] && inn.flight[0].msg.Open? {
      var p := inn.flight[0];
      assert Addressed(p, other, !atA, me);
      LinkTake(inn, p.key);
      var v := View(n, p.key);
      assert Stream.Inv(v);
      assert v.xy.flight[0].Open?;
      assert v.y.Absent?;
    }
  }

  /** The endpoint that acts simulates the stream's end. */
  lemma LocalSimulates(n: Net, atA: bool, act: Action, key: Key)
    requires Inv(n)
    ensures if atA then Simulates(n.a, true, n.ab, n.ba, act, key) else Simulates(n.b, false, n.ba, n.ab, act, key)
  {
    Preconditions(n, atA, act);
    var (me, other, out, inn) := if atA then (n.a, n.b, n.ab, n.ba) else (n.b, n.a, n.ba, n.ab);
    match act {
      case Connect => LiftConnect(me, atA, out, inn, key);
      case Receive(accept, k, stop) => LiftReceive(me, atA, other, out, inn, accept, k, stop, key);
      case _ => LiftFd(me, atA, out, inn, act, key);
    }
  }

  /** The event that an action of one endpoint is for a stream, if it is one. */
  function EventOf(n: Net, atA: bool, act: Action, key: Key): (ev: Option<Stream.Event>)
    ensures ev.Some? && ev.value.Start? ==> atA == key.byA
  {
    if atA then EventFor(n.a, true, n.ba, act, key) else EventFor(n.b, false, n.ab, act, key)
  }

  lemma ViewAfterA(n: Net, act: Action, key: Key)
    requires Simulates(n.a, true, n.ab, n.ba, act, key)
    ensures var ev := EventOf(n, true, act, key);
      View(Step(n, true, act), key) == if ev.None? then View(n, key) else Stream.Apply(View(n, key), key.byA, ev.value)
  {
  }

  lemma ViewAfterB(n: Net, act: Action, key: Key)
    requires Simulates(n.b, false, n.ba, n.ab, act, key)
    ensures var ev := EventOf(n, false, act, key);
      View(Step(n, false, act), key) == if ev.None? then View(n, key) else Stream.Apply(View(n, key), !key.byA, ev.value)
  {
  }

  /** Every step of the system is a step of one stream and leaves all others alone. */
  lemma Lift(n: Net, atA: bool, act: Action, key: Key)
    requires Inv(n)
    ensures var ev := EventOf(n, atA, act, key);
      View(Step(n, atA, act), key) ==
        if ev.None? then View(n, key) else Stream.Apply(View(n, key), atA == key.byA, ev.value)
  {
    LocalSimulates(n, atA, act, key);
    if atA { ViewAfterA(n, act, key); } else { ViewAfterB(n, act, key); }
  }

  lemma StepKeepsInv(n: Net, atA: bool, act: Action)
    requires Inv(n)
    ensures Inv(Step(n, atA, act))
  {
    Preconditions(n, atA, act);
    var (me, other, out, inn) := if atA then (n.a, n.b, n.ab, n.ba) else (n.b, n.a, n.ba, n.ab);
    ActingHalf(me, atA, other, out, inn, act);
    var (me', out', inn') := Local(me, atA, out, inn, act);
    OtherHalf(me, me', atA, other, inn, inn');
    forall key ensures Stream.Inv(View(Step(n, atA, act), key)) {
      Lift(n, atA, act, key);
      var ev := EventOf(n, atA, act, key);
      if ev.Some? { Stream.StepKeepsInv(View(n, key), atA == key.byA, ev.value); }
    }
  }

  /** The invariant holds after every run. */
  lemma {:induction false} RunInv(moves: seq<Move>)
    ensures Inv(Run(moves))
  {
    if moves == [] {
      forall key ensures Stream.Inv(View(INIT, key)) {
        assert View(INIT, key) == Stream.IDLE;
      }
    } else {
      var last := moves[|moves| - 1];
      RunInv(moves[..|moves| - 1]);
      StepKeepsInv(Run(moves[..|moves| - 1]), last.atA, last.act);
    }
  }

  // ---- what holds in every run, for every stream ----

  /**
   * Token conservation: while both ends are open, each direction has exactly one of
   * {sender may read, WRTE in flight, receiver has backlog, OKAY in flight}; at no time
   * does a direction have two, so at most one WRTE is ever unacknowledged.
   */
  lemma TokenConservation(moves: seq<Move>, key: Key)
    ensures var v := View(Run(moves), key);
      && Stream.Tokens(v.x, v.y, v.xy, v.yx) <= 1
      && Stream.Tokens(v.y, v.x, v.yx, v.xy) <= 1
      && (v.x.Live? && v.y.Live? ==>
            Stream.Tokens(v.x, v.y, v.xy, v.yx) == 1 && Stream.Tokens(v.y, v.x, v.yx, v.xy) == 1)
  {
    RunInv(moves);
    assert Stream.Inv(View(Run(moves), key));
  }

  /**
   * Close handshake: on each link CLSE is the last packet of the stream, so each side
   * sends at most one and nothing after it; an end that is still listed has sent none and
   * has received none; with the links empty the two ends are closed together.
   */
  lemma CloseHandshake(moves: seq<Move>, key: Key)
    ensures var v := View(Run(moves), key);
      && Stream.ClseOnlyLast(v.xy.Log()) && Stream.ClseOnlyLast(v.yx.Log())
      && (v.x.Live? ==> Stream.NoClse(v.xy.Log()) && Stream.NoClse(v.yx.past))
      && (v.y.Live? ==> Stream.NoClse(v.yx.Log()) && Stream.NoClse(v.xy.past))
      && (v.xy.flight == [] && v.yx.flight == [] && (Stream.Closed(v.x) || Stream.Closed(v.y)) ==>
            !v.x.Live? && !v.y.Live?)
  {
    RunInv(moves);
    var v := View(Run(moves), key);
    assert Stream.Inv(v);
    if v.xy.flight == [] && v.yx.flight == [] && (Stream.Closed(v.x) || Stream.Closed(v.y)) {
      Stream.DryMeansClosed(v);
    }
  }

  /**
   * A listed socket with backlog has a live peer, so the call s->peer->ready(s->peer)
   * after draining never meets a null peer; and a socket armed for reading has one too.
   */
  lemma BacklogHasPeer(moves: seq<Move>, atA: bool, id: nat)
    ensures var ep := if atA then Run(moves).a else Run(moves).b;
      id in ep.slots && ep.slots[id].end.Live? && ep.slots[id].end.s.peer.None? ==>
        ep.slots[id].end.s.backlog == [] && !ep.slots[id].end.s.armed
  {
    RunInv(moves);
    var n := Run(moves);
    var ep := if atA then n.a else n.b;
    if id in ep.slots {
      assert Stream.Inv(View(n, ep.slots[id].key));
    }
  }

  /** No cross-talk: a packet reaches the socket of its own stream or none. */
  lemma NoCrossTalk(moves: seq<Move>, i: nat)
    ensures var n := Run(moves);
      && (i < |n.ab.flight| && !n.ab.flight[i].msg.Open? && n.ab.flight[i].to in n.b.slots ==>
            n.b.slots[n.ab.flight[i].to].key == n.ab.flight[i].key)
      && (i < |n.ba.flight| && !n.ba.flight[i].msg.Open? && n.ba.flight[i].to in n.a.slots ==>
            n.a.slots[n.ba.flight[i].to].key == n.ba.flight[i].key)
  {
    RunInv(moves);
    var n := Run(moves);
    if i < |n.ab.flight| { assert Addressed(n.ab.flight[i], n.a, true, n.b); }
    if i < |n.ba.flight| { assert Addressed(n.ba.flight[i], n.b, false, n.a); }
  }

  // ---- exact delivery over whole runs ----

  lemma StreamInv(moves: seq<Move>, key: Key)
    ensures Stream.Inv(View(Run(moves), key))
  {
    RunInv(moves);
  }

  lemma LiftMove(before: seq<Move>, m: Move, key: Key)
    ensures var v, ev := View(Run(before), key), EventOf(Run(before), m.atA, m.act, key);
      View(Run(before + [m]), key) == if ev.None? then v else Stream.Apply(v, m.atA == key.byA, ev.value)
  {
    RunInv(before);
    Lift(Run(before), m.atA, m.act, key);
    RunNext(before, m);
  }

  lemma RunNext(before: seq<Move>, m: Move)
    ensures Run(before + [m]) == Step(Run(before), m.atA, m.act)
  {
    assert (before + [m])[..|before|] == before;
  }

  // ---- what went through the file descriptors, told from the moves ----

  /** The bytes the fd of one end of a stream gave to its read events during a run. */
  function ReadLog(moves: seq<Move>, key: Key, side: bool): seq<byte> {
    if moves == [] then []
    else
      var before, m := moves[..|moves| - 1], moves[|moves| - 1];
      var ev := EventOf(Run(before), m.atA, m.act, key);
      ReadLog(before, key, side) +
      if ev.Some? && side == (m.atA == key.byA)
      then Stream.TakenFrom(Stream.Here(View(Run(before), key), side), ev.value) else []
  }

  /** The bytes that fd accepted. */
  function WriteLog(moves: seq<Move>, key: Key, side: bool): seq<byte> {
    if moves == [] then []
    else
      var before, m := moves[..|moves| - 1], moves[|moves| - 1];
      var ev, v := EventOf(Run(before), m.atA, m.act, key), View(Run(before), key);
      WriteLog(before, key, side) +
      if ev.Some? && side == (m.atA == key.byA)
      then Stream.GivenTo(Stream.Here(v, side), Stream.Incoming(v, side), ev.value) else []
  }

  lemma ArmedHasPeer(v: Stream.Stream, side: bool)
    requires Stream.Inv(v)
    ensures Stream.Armed(Stream.Here(v, side)) ==> Stream.Here(v, side).s.peer.Some?
  {
  }

  lemma HistoriesStep(v: Stream.Stream, atX: bool, ev: Stream.Event)
    requires Stream.Inv(v) && (ev.Start? ==> atX)
    ensures var e, e' := Stream.Here(v, atX), Stream.Here(Stream.Apply(v, atX, ev), atX);
      && Stream.Input(e') == Stream.Input(e) + Stream.TakenFrom(e, ev)
      && Stream.Output(e') == Stream.Output(e) + Stream.GivenTo(e, Stream.Incoming(v, atX), ev)
  {
    ArmedHasPeer(v, atX);
    Stream.HistoriesGrow(Stream.Here(v, atX), if atX then v.xy else v.yx, Stream.Incoming(v, atX), ev);
  }

  /** In every run the histories of an end are the logs of its fd. */
  lemma {:induction false} HistoriesAreLogs(moves: seq<Move>, key: Key, side: bool)
    ensures var e := Stream.Here(View(Run(moves), key), side);
      Stream.Input(e) == ReadLog(moves, key, side) && Stream.Output(e) == WriteLog(moves, key, side)
  {
    if moves != [] {
      var before, m := moves[..|moves| - 1], moves[|moves| - 1];
      assert before + [m] == moves;
      HistoriesAreLogs(before, key, side);
      HistoriesNext(before, m, key, side);
    }
  }

  lemma HistoriesNext(before: seq<Move>, m: Move, key: Key, side: bool)
    ensures var v, ev := View(Run(before), key), EventOf(Run(before), m.atA, m.act, key);
      var e, e' := Stream.Here(v, side), Stream.Here(View(Run(before + [m]), key), side);
      var here := ev.Some? && side == (m.atA == key.byA);
      && Stream.Input(e') == Stream.Input(e) + (if here then Stream.TakenFrom(e, ev.value) else [])
      && Stream.Output(e') == Stream.Output(e) + (if here then Stream.GivenTo(e, Stream.Incoming(v, side), ev.value) else [])
  {
    var v, ev := View(Run(before), key), EventOf(Run(before), m.atA, m.act, key);
    LiftMove(before, m, key);
    StreamInv(before, key);
    if ev.Some? {
      if side == (m.atA == key.byA) {
        HistoriesStep(v, side, ev.value);
      } else {
        PeerUntouched(v, m.atA == key.byA, ev.value);
      }
    }
  }

  /**
   * What S's fd gave against what R's fd accepted: all of it is accepted by R's fd, waits in
   * R's backlog, or is in flight, in order.
   */
  ghost predicate InOrder(given: seq<byte>, accepted: seq<byte>, R: End, sr: Stream.Link) {
    && accepted <= given
    && (R.Live? ==> given == accepted + Flat(R.s.backlog) + Stream.Data(sr.flight))
    && (R.Lingering? ==> given == accepted + Flat(R.s.backlog))
    && (R.Gone? && (R.why.PeerClosed? || R.why.Drained?) ==> accepted == given)
  }

  /** Lossless in-order delivery in every run, for every stream and in both directions. */
  lemma LosslessDelivery(moves: seq<Move>, key: Key)
    ensures var v := View(Run(moves), key);
      && InOrder(ReadLog(moves, key, true), WriteLog(moves, key, false), v.y, v.xy)
      && InOrder(ReadLog(moves, key, false), WriteLog(moves, key, true), v.x, v.yx)
  {
    StreamInv(moves, key);
    HistoriesAreLogs(moves, key, true);
    HistoriesAreLogs(moves, key, false);
  }

  ghost predicate StaysClosed(v: Stream.Stream, v': Stream.Stream, side: bool) {
    var e, e' := Stream.Here(v, side), Stream.Here(v', side);
    && (e.Gone? ==> e' == e)
    && (Stream.Closed(e) ==> Stream.Closed(e') && Stream.Input(e') == Stream.Input(e))
  }

  lemma StaysClosedStep(v: Stream.Stream, atX: bool, ev: Stream.Event, side: bool)
    ensures StaysClosed(v, Stream.Apply(v, atX, ev), side)
  {
    if Stream.Here(v, side).Gone? { Stream.GoneStays(v, atX, ev, side); }
    if Stream.Closed(Stream.Here(v, side)) { Stream.ClosedReadsNothing(v, atX, ev, side); }
  }

  /** In every run: a destroyed end stays as it is, a closed end reads nothing more. */
  lemma {:induction false} ClosedForGood(moves: seq<Move>, i: nat, key: Key, side: bool)
    requires i <= |moves|
    ensures StaysClosed(View(Run(moves[..i]), key), View(Run(moves), key), side)
  {
    if i == |moves| {
      assert moves[..i] == moves;
    } else {
      var before, m := moves[..|moves| - 1], moves[|moves| - 1];
      assert before[..i] == moves[..i] && before + [m] == moves;
      ClosedForGood(before, i, key, side);
      LiftMove(before, m, key);
      var v, ev := View(Run(before), key), EventOf(Run(before), m.atA, m.act, key);
      if ev.Some? { StaysClosedStep(v, m.atA == key.byA, ev.value, side); }
    }
  }

  /** Move i as an event at one end of a stream: the stream before it, which end, the event. */
  datatype Moment = Moment(v: Stream.Stream, side: bool, ev: Option<Stream.Event>)

  function At(moves: seq<Move>, i: nat, key: Key): Moment
    requires i < |moves|
  {
    var n, m := Run(moves[..i]), moves[i];
    Moment(View(n, key), m.atA == key.byA, EventOf(n, m.atA, m.act, key))
  }

  /** The end where the event happens is there, and the event destroys it. */
  predicate Destroyed(w: Moment) {
    && w.ev.Some? && !Stream.Here(w.v, w.side).Gone?
    && Stream.Destroys(Stream.Here(w.v, w.side), Stream.Incoming(w.v, w.side), w.ev.value)
  }

  predicate LosesNothing(w: Moment)
    requires w.ev.Some?
  {
    Stream.LosesNothing(Stream.Here(w.v, w.side), Stream.Incoming(w.v, w.side), w.ev.value)
  }

  lemma DestroyedNow(moves: seq<Move>, i: nat, key: Key)
    requires i < |moves| && Destroyed(At(moves, i, key))
    ensures var w, next := At(moves, i, key), View(Run(moves[..i + 1]), key);
      && Stream.Here(next, w.side).Gone?
      && (Stream.Output(Stream.Here(next, w.side)) == Stream.Input(Stream.There(w.v, w.side)) <==> LosesNothing(w))
  {
    var w := At(moves, i, key);
    assert moves[..i + 1] == moves[..i] + [moves[i]];
    LiftMove(moves[..i], moves[i], key);
    StreamInv(moves[..i], key);
    Stream.ExactDelivery(w.v, w.side, w.ev.value);
    PeerUntouched(w.v, w.side, w.ev.value);
  }

  /** An end goes at move i only in the way Destroyed says. */
  lemma OnlyDestroyed(moves: seq<Move>, i: nat, key: Key, side: bool)
    requires i < |moves| && !Stream.Here(View(Run(moves[..i]), key), side).Gone?
    ensures Stream.Here(View(Run(moves[..i + 1]), key), side).Gone?
      ==> Destroyed(At(moves, i, key)) && side == At(moves, i, key).side
  {
    var w := At(moves, i, key);
    assert moves[..i + 1] == moves[..i] + [moves[i]];
    LiftMove(moves[..i], moves[i], key);
    StreamInv(moves[..i], key);
    if w.ev.Some? {
      PeerUntouched(w.v, w.side, w.ev.value);
      if side == w.side { Stream.ExactDelivery(w.v, side, w.ev.value); } else { SidesSwap(w.v, side); }
    }
  }

  lemma DestroyedForGood(moves: seq<Move>, i: nat, key: Key)
    requires i < |moves| && Destroyed(At(moves, i, key))
    ensures var w, end := At(moves, i, key), View(Run(moves), key);
      && Stream.Here(end, w.side).Gone?
      && (Stream.Output(Stream.Here(end, w.side)) == Stream.Input(Stream.There(w.v, w.side)) <==> LosesNothing(w))
      && (Stream.Closed(Stream.There(w.v, w.side)) ==> Stream.Input(Stream.There(end, w.side)) == Stream.Input(Stream.There(w.v, w.side)))
  {
    var w, end := At(moves, i, key), View(Run(moves), key);
    DestroyedNow(moves, i, key);
    ClosedForGood(moves, i + 1, key, w.side);
    ClosedForGood(moves, i, key, !w.side);
    SidesSwap(w.v, w.side);
    SidesSwap(end, w.side);
  }

  /**
   * Exact delivery, in every run and for every stream.  If move i destroys an end, then what
   * its fd accepted in the whole run is all that the fd of its peer had given by then exactly
   * when LosesNothing holds of the state before the move.  If the peer had closed in good
   * order before, that is all the peer's fd ever gave.
   */
  lemma ExactDelivery(moves: seq<Move>, i: nat, key: Key)
    requires i < |moves| && Destroyed(At(moves, i, key))
    ensures var w := At(moves, i, key);
      && Stream.Here(View(Run(moves), key), w.side).Gone?
      && (WriteLog(moves, key, w.side) == ReadLog(moves[..i], key, !w.side) <==> LosesNothing(w))
      && (Stream.Closed(Stream.There(w.v, w.side)) ==>
            (WriteLog(moves, key, w.side) == ReadLog(moves, key, !w.side) <==> LosesNothing(w)))
  {
    var w := At(moves, i, key);
    DestroyedForGood(moves, i, key);
    HistoriesAreLogs(moves, key, w.side);
    HistoriesAreLogs(moves, key, !w.side);
    HistoriesAreLogs(moves[..i], key, !w.side);
    SidesSwap(w.v, w.side);
    SidesSwap(View(Run(moves), key), w.side);
  }

  lemma PeerUntouched(v: Stream.Stream, atX: bool, ev: Stream.Event)
    ensures Stream.There(Stream.Apply(v, atX, ev), atX) == Stream.There(v, atX)
  {
  }

  lemma SidesSwap(v: Stream.Stream, side: bool)
    ensures Stream.Here(v, !side) == Stream.There(v, side)
  {
  }

  // ---- closing always quiesces ----

  function Weight(ps: seq<Packet>): nat {
    if ps == [] then 0 else Stream.Weight([ps[0].msg]) + Weight(ps[1..])
  }

  lemma {:induction false} WeightAppend(ps: seq<Packet>, qs: seq<Packet>)
    ensures Weight(ps + qs) == Weight(ps) + Weight(qs)
  {
    if ps == [] {
      assert ps + qs == qs;
    } else {
      assert (ps + qs)[1..] == ps[1..] + qs;
      WeightAppend(ps[1..], qs);
    }
  }

  function Listed(ep: Endpoint): set<nat> { set id | id in ep.slots && ep.slots[id].end.Live? }

  /** A packet weighs more than its reply; a listed socket weighs one, for the CLSE it may still send. */
  function Load(n: Net): nat {
    Weight(n.ab.flight) + Weight(n.ba.flight) + |Listed(n.a)| + |Listed(n.b)|
  }

  lemma {:induction false} WeightOfPost(key: Key, outs: seq<Out>)
    ensures Weight(Post(key, outs)) == Stream.Weight(Stream.Msgs(outs))
  {
    if outs != [] {
      WeightOfPost(key, outs[1..]);
      assert Post(key, outs)[1..] == Post(key, outs[1..]);
      assert Stream.Msgs(outs) == [outs[0].msg] + Stream.Msgs(outs[1..]);
      Stream.WeightAppend([outs[0].msg], Stream.Msgs(outs[1..]));
    }
  }

  lemma ListedAfter(ep: Endpoint, id: nat, slot: Slot, slots: map<nat, Slot>)
    requires slots == ep.slots[id := slot]
    ensures |Listed(ep.(slots := slots))|
      == |Listed(ep)| - Stream.Bit(id in ep.slots && ep.slots[id].end.Live?) + Stream.Bit(slot.end.Live?)
  {
    var was, now := Listed(ep), Listed(ep.(slots := slots));
    assert now - {id} == was - {id};
    assert |was - {id}| == |was| - Stream.Bit(id in was);
    assert |now - {id}| == |now| - Stream.Bit(id in now);
  }

  /** Handling a packet sends less than the packet weighed. */
  lemma HandleLightens(me: Endpoint, isA: bool, p: Packet, accept: bool, k: nat, stop: Stop)
    requires me.nextId !in me.slots
    ensures var (me', ps) := Handle(me, isA, p, accept, k, stop);
      Weight(ps) + |Listed(me')| < Stream.Weight([p.msg]) + |Listed(me)|
  {
    if p.msg.Open? {
      var key := Key(!isA, p.msg.from);
      var (e, outs) := OnMsg(Absent, me.nextId, p.msg, accept, k, stop);
      Stream.ReplyIsLighter(Absent, p.msg, me.nextId, accept, k, stop);
      WeightOfPost(key, outs);
      if e.Live? {
        ListedAfter(me, me.nextId, Slot(key, e), me.slots[me.nextId := Slot(key, e)]);
        SameListed(Handle(me, isA, p, accept, k, stop).0, me.(slots := me.slots[me.nextId := Slot(key, e)]));
      }
    } else if p.to in me.slots {
      var slot := me.slots[p.to];
      var (e, outs) := OnMsg(slot.end, p.to, p.msg, accept, k, stop);
      Stream.ReplyIsLighter(slot.end, p.msg, p.to, accept, k, stop);
      WeightOfPost(slot.key, outs);
      ListedAfter(me, p.to, slot.(end := e), me.slots[p.to := slot.(end := e)]);
    } else {
      assert Stream.Weight([p.msg]) >= 1;
    }
  }

  lemma SameListed(ep: Endpoint, ep': Endpoint)
    requires ep.slots == ep'.slots
    ensures Listed(ep) == Listed(ep')
  {
  }

  /** A move that delivers a packet. */
  predicate Delivers(n: Net, m: Move) {
    m.act.Receive? && (if m.atA then n.ba.flight else n.ab.flight) != []
  }

  lemma DeliveryLightens(n: Net, m: Move)
    requires Inv(n) && Delivers(n, m)
    ensures Load(Step(n, m.atA, m.act)) < Load(n)
  {
    var (me, out, inn) := if m.atA then (n.a, n.ab, n.ba) else (n.b, n.ba, n.ab);
    var p := inn.flight[0];
    HandleLightens(me, m.atA, p, m.act.accept, m.act.k, m.act.stop);
    WeightAppend(out.flight, Handle(me, m.atA, p, m.act.accept, m.act.k, m.act.stop).1);
  }

  function Continue(n: Net, more: seq<Move>): Net
    decreases |more|
  {
    if more == [] then n else Continue(Step(n, more[0].atA, more[0].act), more[1..])
  }

  /** `more` only delivers packets that are there. */
  predicate OnlyDelivers(n: Net, more: seq<Move>)
    decreases |more|
  {
    more == [] || (Delivers(n, more[0]) && OnlyDelivers(Step(n, more[0].atA, more[0].act), more[1..]))
  }

  /** Deliveries alone cannot go on for longer than the load. */
  lemma {:induction false} DeliveriesRunOut(n: Net, more: seq<Move>)
    requires Inv(n) && OnlyDelivers(n, more)
    ensures Inv(Continue(n, more)) && |more| + Load(Continue(n, more)) <= Load(n)
    decreases |more|
  {
    if more != [] {
      DeliveryLightens(n, more[0]);
      StepKeepsInv(n, more[0].atA, more[0].act);
      DeliveriesRunOut(Step(n, more[0].atA, more[0].act), more[1..]);
    }
  }

  /**
   * Closing always quiesces: from every run, delivering what is in flight ends within the
   * load, and once nothing is in flight every stream with a closed end is closed at both.
   */
  lemma Quiesces(moves: seq<Move>, more: seq<Move>, key: Key)
    requires OnlyDelivers(Run(moves), more)
    ensures |more| <= Load(Run(moves))
    ensures var n := Continue(Run(moves), more);
      var v := View(n, key);
      n.ab.flight == [] && n.ba.flight == [] && (Stream.Closed(v.x) || Stream.Closed(v.y)) ==> !v.x.Live? && !v.y.Live?
  {
    RunInv(moves);
    DeliveriesRunOut(Run(moves), more);
    var n := Continue(Run(moves), more);
    if n.ab.flight == [] && n.ba.flight == [] { DryNetIsClosed(n, key); }
  }

  lemma DryNetIsClosed(n: Net, key: Key)
    requires Inv(n) && n.ab.flight == [] && n.ba.flight == []
    ensures var v := View(n, key); Stream.Closed(v.x) || Stream.Closed(v.y) ==> !v.x.Live? && !v.y.Live?
  {
    var v := View(n, key);
    assert Stream.Inv(v);
    if Stream.Closed(v.x) || Stream.Closed(v.y) { Stream.DryMeansClosed(v); }
  }
}
