/**
 * One ADB stream between two endpoints that run the same code, over two FIFO packet
 * links.  `x` is the end that opened the stream (connect_to_remote), `y` the end that
 * answered the OPEN.  File-descriptor behaviour is a parameter of every event.
 *
 * Inv is kept by every event; it holds the flow-control token count, the delivery
 * equation and the close handshake.
 */
module Stream {
  import opened Common
  import opened StreamSocket

  /** A FIFO link: what has been delivered and what is on its way. */
  datatype Link = Link(past: seq<Msg>, flight: seq<Msg>) {
    function Log(): seq<Msg> { past + flight }
    function Send(ms: seq<Msg>): Link { Link(past, flight + ms) }
    function Take(): Link requires flight != [] { Link(past + [flight[0]], flight[1..]) }
  }

  datatype Stream = Stream(x: End, y: End, xy: Link, yx: Link)

  const IDLE := Stream(Absent, Absent, Link([], []), Link([], []))

  /** `me` is the id of the local socket at the end where the event happens. */
  datatype Event =
    | Start(me: nat)
    | Deliver(me: nat, accept: bool, k: nat, stop: Stop)
    | Read(me: nat, data: seq<byte>, eof: bool)
    | Write(me: nat, k: nat, stop: Stop)
    | StaleRead(eof: bool)

  function Msgs(outs: seq<Out>): (ms: seq<Msg>)
    ensures |ms| == |outs|
    ensures forall i :: 0 <= i < |outs| ==> ms[i] == outs[i].msg
  {
    seq(|outs|, i requires 0 <= i < |outs| => outs[i].msg)
  }

  /** An event at one end: the new end, the link it sends on, the link it receives from. */
  function Act(e: End, out: Link, inn: Link, ev: Event): (End, Link, Link) {
    match ev
    case Start(me) =>
      if e.Absent? && out.Log() == [] && inn.Log() == [] then (Live(FRESH), out.Send([Open(me)]), inn)
      else (e, out, inn)
    case Deliver(me, accept, k, stop) =>
      if inn.flight == [] then (e, out, inn) else
      var (e', outs) := OnMsg(e, me, inn.flight[0], accept, k, stop);
      (e', out.Send(Msgs(outs)), inn.Take())
    case Read(me, data, eof) =>
      var (e', outs) := OnRead(e, me, data, eof); (e', out.Send(Msgs(outs)), inn)
    case Write(me, k, stop) =>
      var (e', outs) := OnWrite(e, me, k, stop); (e', out.Send(Msgs(outs)), inn)
    case StaleRead(eof) =>
      var (e', outs) := OnStaleRead(e, eof); (e', out.Send(Msgs(outs)), inn)
  }

  /** One step.  Only the opening end ever starts. */
  function Apply(v: Stream, atX: bool, ev: Event): Stream {
    if atX then
      var (x', xy', yx') := Act(v.x, v.xy, v.yx, ev);
      Stream(x', v.y, xy', yx')
    else if ev.Start? then v
    else
      var (y', yx', xy') := Act(v.y, v.yx, v.xy, ev);
      Stream(v.x, y', xy', yx')
  }

  // ---- measures of a link ----

  function Data(ms: seq<Msg>): seq<byte> {
    if ms == [] then [] else (if ms[0].Wrte? then ms[0].data else []) + Data(ms[1..])
  }

  function Wrtes(ms: seq<Msg>): nat {
    if ms == [] then 0 else (if ms[0].Wrte? then 1 else 0) + Wrtes(ms[1..])
  }

  function Okays(ms: seq<Msg>): nat {
    if ms == [] then 0 else (if ms[0].Okay? then 1 else 0) + Okays(ms[1..])
  }

  predicate NoClse(ms: seq<Msg>) {
    forall i :: 0 <= i < |ms| ==> !ms[i].Clse?
  }

  /** Nothing follows a CLSE. */
  predicate ClseOnlyLast(ms: seq<Msg>) {
    forall i :: 0 <= i < |ms| - 1 ==> !ms[i].Clse?
  }

  predicate NoOpen(ms: seq<Msg>) {
    forall i :: 0 <= i < |ms| ==> !ms[i].Open?
  }

  lemma {:induction false} Appended(q: seq<Msg>, ms: seq<Msg>)
    ensures Data(q + ms) == Data(q) + Data(ms)
    ensures Wrtes(q + ms) == Wrtes(q) + Wrtes(ms)
    ensures Okays(q + ms) == Okays(q) + Okays(ms)
  {
    if q == [] {
      assert q + ms == ms;
    } else {
      assert (q + ms)[1..] == q[1..] + ms;
      Appended(q[1..], ms);
    }
  }

  lemma Singles(m: Msg)
    ensures Data([m]) == if m.Wrte? then m.data else []
    ensures Wrtes([m]) == if m.Wrte? then 1 else 0
    ensures Okays([m]) == if m.Okay? then 1 else 0
  {
    assert [m][1..] == [];
  }

  lemma {:induction false} NoWrteNoData(q: seq<Msg>)
    requires Wrtes(q) == 0
    ensures Data(q) == []
  {
    if q != [] { NoWrteNoData(q[1..]); }
  }

  // ---- the invariant ----

  function Input(e: End): seq<byte> { if e.Absent? then [] else e.s.input }
  function Output(e: End): seq<byte> { if e.Absent? then [] else e.s.output }

  predicate Armed(e: End) { e.Live? && e.s.armed }
  predicate Holding(e: End) { (e.Live? || e.Lingering?) && e.s.backlog != [] }
  predicate Closed(e: End) { e.Lingering? || e.Gone? }

  function Bit(b: bool): nat { if b then 1 else 0 }

  /**
   * The flow-control tokens of the direction S -> R: S may read its fd, a WRTE is on
   * its way, R still has to write it, an OKAY is on its way back.
   */
  function Tokens(S: End, R: End, sr: Link, rs: Link): nat {
    Bit(Armed(S)) + Wrtes(sr.flight) + Bit(Holding(R)) + Okays(rs.flight)
  }

  ghost predicate Flow(S: End, R: End, sr: Link, rs: Link) {
    && Tokens(S, R, sr, rs) <= 1
    && (S.Live? && R.Live? ==> Tokens(S, R, sr, rs) == 1)
  }

  ghost predicate Delivery(S: End, R: End, sr: Link, rs: Link) {
    && Data(sr.past) + Data(sr.flight) == Input(S)
    && Output(R) <= Input(S)
    && (R.Live? ==> Input(S) == R.s.output + Flat(R.s.backlog) + Data(sr.flight))
    && (R.Lingering? ==> R.s.backlog != [] && Input(S) == R.s.output + Flat(R.s.backlog))
    && (R.Gone? && (R.why.PeerClosed? || R.why.Drained?) ==>
          Input(S) == R.s.output && (S.Live? ==> Tokens(S, R, sr, rs) == 0))
  }

  ghost predicate Closing(S: End, R: End, sr: Link) {
    && ClseOnlyLast(sr.Log())
    && (S.Live? ==> NoClse(sr.Log()))
    && (R.Live? ==> NoClse(sr.past))
    && (Closed(S) ==> R.Absent? || !NoClse(sr.Log()))
  }

  ghost predicate Dir(S: End, R: End, sr: Link, rs: Link) {
    Flow(S, R, sr, rs) && Delivery(S, R, sr, rs) && Closing(S, R, sr)
  }

  /** How far the OPEN handshake has come. */
  ghost predicate Phase(v: Stream) {
    if v.y.Absent? then
      || v == IDLE
      || (v.x == Live(FRESH) && v.xy.past == [] && v.yx == Link([], [])
          && |v.xy.flight| == 1 && v.xy.flight[0].Open?)
      || (v.xy.flight == [] && |v.xy.past| == 1 && v.xy.past[0].Open?
          && ((v.yx == Link([], [Clse]) && v.x == Live(FRESH))
              || (v.yx == Link([Clse], []) && v.x == Gone(FRESH, PeerClosed))))
    else
      && !v.x.Absent?
      && NoOpen(v.xy.flight) && NoOpen(v.yx.flight) && v.xy.past != []
      && (v.y.Live? ==> v.y.s.peer.Some?)
      && (v.x.Live? && v.x.s.peer.None? ==>
            v.x.s == FRESH && v.yx.past == [] && v.yx.flight != [] && v.yx.flight[0].Okay?)
  }

  ghost predicate Inv(v: Stream) {
    && Phase(v)
    && Dir(v.x, v.y, v.xy, v.yx)
    && Dir(v.y, v.x, v.yx, v.xy)
  }

  // ---- every event keeps the invariant ----

  /** What one end may assume when an event other than the handshake reaches it. */
  ghost predicate Both(S: End, R: End, sr: Link, rs: Link) {
    Dir(S, R, sr, rs) && Dir(R, S, rs, sr)
  }

  lemma SendFacts(q: Link, m: Msg)
    ensures q.Send([m]).Log() == q.Log() + [m]
    ensures Data(q.Send([m]).flight) == Data(q.flight) + (if m.Wrte? then m.data else [])
    ensures Wrtes(q.Send([m]).flight) == Wrtes(q.flight) + Bit(m.Wrte?)
    ensures Okays(q.Send([m]).flight) == Okays(q.flight) + Bit(m.Okay?)
  {
    Appended(q.flight, [m]);
    Singles(m);
  }

  lemma TakeFacts(q: Link)
    requires q.flight != []
    ensures q.Take().Log() == q.Log()
    ensures Data(q.Take().past) == Data(q.past) + (if q.flight[0].Wrte? then q.flight[0].data else [])
  {
    Appended(q.past, [q.flight[0]]);
    Singles(q.flight[0]);
  }

  lemma SendNothing(q: Link)
    ensures q.Send([]) == q && q.Send(Msgs([])) == q
  {
    assert q.flight + [] == q.flight;
    assert Msgs([]) == [];
  }

  lemma SendOut(q: Link, o: Out)
    ensures q.Send(Msgs([o])) == q.Send([o.msg])
  {
    assert Msgs([o]) == [o.msg];
  }

  /** The sending side's part of a close: CLSE becomes the last packet on the link. */
  lemma ClseSent(S: End, S': End, R: End, sr: Link, rs: Link)
    requires Dir(S, R, sr, rs) && S.Live? && Closed(S')
    requires S'.s.input == S.s.input
    ensures Dir(S', R, sr.Send([Clse]), rs)
  {
    SendFacts(sr, Clse);
    ClseClosing(S, S', R, sr);
    assert Delivery(S', R, sr.Send([Clse]), rs);
  }

  lemma ClseClosing(S: End, S': End, R: End, sr: Link)
    requires Closing(S, R, sr) && S.Live? && Closed(S')
    ensures Closing(S', R, sr.Send([Clse]))
  {
    SendFacts(sr, Clse);
    var sr' := sr.Send([Clse]);
    assert sr'.Log()[|sr'.Log()| - 1].Clse?;
    assert sr'.past == sr.past;
  }

  /** The receiving side's part of a close that this end started itself. */
  lemma CloseReceiver(s: Sock, why: Cause, R: End, sr: Link, rs: Link)
    requires Dir(R, Live(s), rs, sr) && (why.LocalEof? || why.Broken?)
    ensures Dir(R, Close(s, why).0, rs, sr.Send([Clse]))
  {
    SendFacts(sr, Clse);
    if s.backlog != [] {
      NoWrteNoData(rs.flight);
    }
  }

  lemma CloseKeeps(s: Sock, why: Cause, R: End, sr: Link, rs: Link)
    requires Both(Live(s), R, sr, rs) && s.peer.Some? && (why.LocalEof? || why.Broken?)
    ensures var (e, outs) := Close(s, why); Both(e, R, sr.Send(Msgs(outs)), rs)
  {
    SendOut(sr, Out(s.peer.value, Clse));
    ClseSent(Live(s), Close(s, why).0, R, sr, rs);
    CloseReceiver(s, why, R, sr, rs);
  }

  /** A packet for an end that is no longer listed is dropped. */
  lemma IgnoredKeeps(S: End, R: End, sr: Link, rs: Link)
    requires Both(S, R, sr, rs) && Closed(S) && rs.flight != []
    ensures Both(S, R, sr, rs.Take())
  {
    TakeFacts(rs);
    IgnoredSender(S, R, sr, rs);
    IgnoredReceiver(S, R, sr, rs);
  }

  lemma IgnoredSender(S: End, R: End, sr: Link, rs: Link)
    requires Dir(S, R, sr, rs) && Closed(S) && rs.flight != []
    ensures Dir(S, R, sr, rs.Take())
  {
    assert Okays(rs.Take().flight) <= Okays(rs.flight);
  }

  lemma IgnoredReceiver(S: End, R: End, sr: Link, rs: Link)
    requires Dir(R, S, rs, sr) && Closed(S) && rs.flight != []
    ensures Dir(R, S, rs.Take(), sr)
  {
    TakeFacts(rs);
    assert Wrtes(rs.Take().flight) <= Wrtes(rs.flight);
    var d := if rs.flight[0].Wrte? then rs.flight[0].data else [];
    Regroup(Data(rs.past), d, Data(rs.Take().flight));
  }

  lemma OkayKeeps(s: Sock, R: End, sr: Link, rs: Link)
    requires Both(Live(s), R, sr, rs) && rs.flight != [] && rs.flight[0].Okay?
    ensures Both(OnMsg(Live(s), 0, rs.flight[0], false, 0, Blocked).0, R, sr, rs.Take())
  {
    var S' := OnMsg(Live(s), 0, rs.flight[0], false, 0, Blocked).0;
    OkaySender(s, S', R, sr, rs);
    OkayReceiver(s, S', R, sr, rs);
  }

  /** The token comes back: the sender may read again. */
  lemma OkaySender(s: Sock, S': End, R: End, sr: Link, rs: Link)
    requires Dir(Live(s), R, sr, rs) && rs.flight != [] && rs.flight[0].Okay?
    requires S'.Live? && S'.s == s.(peer := S'.s.peer, armed := true)
    ensures Dir(S', R, sr, rs.Take())
  {
    assert Okays(rs.flight) == 1 + Okays(rs.Take().flight);
    assert !s.armed;
    assert Tokens(S', R, sr, rs.Take()) == Tokens(Live(s), R, sr, rs);
  }

  lemma TakeOkay(q: Link)
    requires q.flight != [] && q.flight[0].Okay?
    ensures var q' := q.Take();
      && q'.Log() == q.Log() && Data(q'.past) == Data(q.past) && Data(q'.flight) == Data(q.flight)
      && Wrtes(q'.flight) == Wrtes(q.flight) && Okays(q'.flight) + 1 == Okays(q.flight)
  {
    TakeFacts(q);
  }

  lemma OkayReceiver(s: Sock, S': End, R: End, sr: Link, rs: Link)
    requires Dir(R, Live(s), rs, sr) && rs.flight != [] && rs.flight[0].Okay?
    requires S'.Live? && S'.s == s.(peer := S'.s.peer, armed := true)
    ensures Dir(R, S', rs.Take(), sr)
  {
    TakeOkay(rs);
    assert Flow(R, S', rs.Take(), sr) by { assert Tokens(R, S', rs.Take(), sr) == Tokens(R, Live(s), rs, sr); }
    LiveDelivery(R, S', rs.Take(), sr);
    OkayClosing(R, Live(s), S', rs);
  }

  lemma OkayClosing(R: End, S: End, S': End, rs: Link)
    requires Closing(R, S, rs) && S.Live? && S'.Live? && rs.flight != [] && rs.flight[0].Okay?
    ensures Closing(R, S', rs.Take())
  {
    TakeOkay(rs);
  }

  /** For a live receiver S, delivery is two equations. */
  lemma LiveDelivery(R: End, S: End, rs: Link, sr: Link)
    requires S.Live? && Data(rs.past) + Data(rs.flight) == Input(R)
    requires Input(R) == S.s.output + Flat(S.s.backlog) + Data(rs.flight)
    ensures Delivery(R, S, rs, sr)
  {
    assert S.s.output <= S.s.output + Flat(S.s.backlog) + Data(rs.flight);
  }

  lemma ClseArrivesLast(R: End, S: End, rs: Link, sr: Link)
    requires Dir(R, S, rs, sr) && rs.flight != [] && rs.flight[0].Clse?
    ensures rs.flight == [Clse] && !R.Live?
  {
    var i := |rs.past|;
    assert rs.Log()[i] == rs.flight[0];
  }

  lemma ClseKeeps(s: Sock, R: End, sr: Link, rs: Link)
    requires Both(Live(s), R, sr, rs) && s.peer.Some? && rs.flight != [] && rs.flight[0].Clse?
    ensures var (e, outs) := Close(s, PeerClosed); Both(e, R, sr.Send(Msgs(outs)), rs.Take())
  {
    SendOut(sr, Out(s.peer.value, Clse));
    ClseArrivesLast(R, Live(s), rs, sr);
    assert Dir(Live(s), R, sr, rs.Take());
    ClseSent(Live(s), Close(s, PeerClosed).0, R, sr, rs.Take());
    ClseReceiver(s, R, sr, rs);
  }

  lemma ClseReceiver(s: Sock, R: End, sr: Link, rs: Link)
    requires Dir(R, Live(s), rs, sr) && rs.flight == [Clse] && !R.Live?
    ensures Dir(R, Close(s, PeerClosed).0, rs.Take(), sr.Send([Clse]))
  {
    TakeFacts(rs);
    SendFacts(sr, Clse);
    assert Data(rs.flight) == [] by { Singles(Clse); }
  }

  /** Sending an OKAY, or nothing, does not touch the direction in which this end sends data. */
  lemma SenderFrame(S: End, S': End, R: End, sr: Link, sr': Link, rs: Link, rs': Link, me: nat)
    requires Dir(S, R, sr, rs) && S.Live? && S'.Live?
    requires S'.s.armed == S.s.armed && S'.s.input == S.s.input
    requires sr' == sr || sr' == sr.Send([Okay(me)])
    requires Okays(rs'.flight) == Okays(rs.flight)
    ensures Dir(S', R, sr', rs')
  {
    SendFacts(sr, Okay(me));
    assert Tokens(S', R, sr', rs') == Tokens(S, R, sr, rs);
    assert sr'.past == sr.past && NoClse(sr'.Log());
  }

  /**
   * The receiving end went from S to S' (both live) on taking the head WRTE or on
   * writing backlog, so that bytes moved from link or backlog to output only.
   */
  lemma ReceiverMoves(R: End, S: End, S': End, rs: Link, rs': Link, sr: Link, sr': Link)
    requires Dir(R, S, rs, sr) && S.Live? && S'.Live?
    requires rs' == rs || (rs.flight != [] && rs.flight[0].Wrte? && rs' == rs.Take())
    requires S'.s.output + Flat(S'.s.backlog) + Data(rs'.flight)
          == S.s.output + Flat(S.s.backlog) + Data(rs.flight)
    requires Tokens(R, S', rs', sr') == Tokens(R, S, rs, sr)
    ensures Dir(R, S', rs', sr')
  {
    assert Flow(R, S', rs', sr');
    ReceiverMovesDelivery(R, S, S', rs, rs', sr, sr');
    ReceiverMovesClosing(R, S, S', rs, rs');
  }

  lemma ReceiverMovesDelivery(R: End, S: End, S': End, rs: Link, rs': Link, sr: Link, sr': Link)
    requires Delivery(R, S, rs, sr) && S.Live? && S'.Live?
    requires rs' == rs || (rs.flight != [] && rs.flight[0].Wrte? && rs' == rs.Take())
    requires S'.s.output + Flat(S'.s.backlog) + Data(rs'.flight)
          == S.s.output + Flat(S.s.backlog) + Data(rs.flight)
    ensures Delivery(R, S', rs', sr')
  {
    if rs' != rs {
      TakeFacts(rs);
      Regroup(Data(rs.past), rs.flight[0].data, Data(rs'.flight));
    }
    LiveDelivery(R, S', rs', sr');
  }

  lemma ReceiverMovesClosing(R: End, S: End, S': End, rs: Link, rs': Link)
    requires Closing(R, S, rs) && S.Live? && S'.Live?
    requires rs' == rs || (rs.flight != [] && rs.flight[0].Wrte? && rs' == rs.Take())
    ensures Closing(R, S', rs')
  {
    if rs' != rs { TakeFacts(rs); }
  }

  /** A WRTE written completely: the token turns into an OKAY. */
  lemma WrteDone(s: Sock, s': Sock, me: nat, R: End, sr: Link, rs: Link)
    requires Both(Live(s), R, sr, rs) && rs.flight != [] && rs.flight[0].Wrte?
    requires s.backlog == [] && s' == s.(output := s.output + rs.flight[0].data)
    ensures Both(Live(s'), R, sr.Send([Okay(me)]), rs.Take())
  {
    SendFacts(sr, Okay(me));
    SenderFrame(Live(s), Live(s'), R, sr, sr.Send([Okay(me)]), rs, rs.Take(), me);
    var d, rest := rs.flight[0].data, Data(rs.Take().flight);
    Regroup(s.output, d, rest);
    assert s.output + Flat(s.backlog) == s.output && s'.output + Flat(s'.backlog) == s.output + d;
    assert Data(rs.flight) == d + rest;
    ReceiverMoves(R, Live(s), Live(s'), rs, rs.Take(), sr, sr.Send([Okay(me)]));
  }

  lemma HeldBytes(out: seq<byte>, d: seq<byte>, n: nat, rest: seq<byte>)
    requires n <= |d|
    ensures (out + d[..n]) + d[n..] + rest == out + (d + rest)
  {
    assert d == d[..n] + d[n..];
  }

  /** A WRTE written in part: the token stays here as backlog. */
  lemma WrteHeld(s: Sock, s': Sock, n: nat, R: End, sr: Link, rs: Link)
    requires Both(Live(s), R, sr, rs) && rs.flight != [] && rs.flight[0].Wrte? && n <= |rs.flight[0].data|
    requires s.backlog == []
    requires s' == s.(output := s.output + rs.flight[0].data[..n], backlog := [rs.flight[0].data[n..]])
    ensures Both(Live(s'), R, sr, rs.Take())
  {
    SenderFrame(Live(s), Live(s'), R, sr, sr, rs, rs.Take(), 0);
    var d, rest := rs.flight[0].data, Data(rs.Take().flight);
    FlatOne(d[n..]);
    HeldBytes(s.output, d, n, rest);
    assert s.output + Flat(s.backlog) == s.output;
    assert Data(rs.flight) == d + rest;
    ReceiverMoves(R, Live(s), Live(s'), rs, rs.Take(), sr, sr);
  }

  /** A WRTE whose write failed: this end closes with nothing left to write. */
  lemma WrteFailed(s: Sock, s': Sock, n: nat, R: End, sr: Link, rs: Link)
    requires Both(Live(s), R, sr, rs) && rs.flight != [] && rs.flight[0].Wrte? && n <= |rs.flight[0].data|
    requires s.backlog == [] && s.peer.Some? && s' == s.(output := s.output + rs.flight[0].data[..n])
    ensures var (e, outs) := Close(s', Broken); Both(e, R, sr.Send(Msgs(outs)), rs.Take())
  {
    var e := Close(s', Broken).0;
    SendOut(sr, Out(s.peer.value, Clse));
    SendFacts(sr, Clse);
    SenderFrame(Live(s), Live(s), R, sr, sr, rs, rs.Take(), 0);
    ClseSent(Live(s), e, R, sr, rs.Take());
    assert Flow(R, e, rs.Take(), sr.Send([Clse]));
    WrteFailedDelivery(s, e, n, R, sr, rs);
    TakeFacts(rs);
    assert Closing(R, e, rs.Take());
  }

  lemma WrteFailedDelivery(s: Sock, e: End, n: nat, R: End, sr: Link, rs: Link)
    requires Delivery(R, Live(s), rs, sr) && rs.flight != [] && rs.flight[0].Wrte? && n <= |rs.flight[0].data|
    requires s.backlog == [] && e.Gone? && e.why.Broken? && e.s.output == s.output + rs.flight[0].data[..n]
    ensures Delivery(R, e, rs.Take(), sr.Send([Clse]))
  {
    TakeFacts(rs);
    var d, rest := rs.flight[0].data, Data(rs.flight[1..]);
    Regroup(Data(rs.past), d, rest);
    assert Input(R) == s.output + (d + rest) by { assert s.output + Flat(s.backlog) == s.output; }
    assert d[..n] == (d + rest)[..n];
    TakenIsPrefix(s.output, d + rest, n);
  }

  /** By the token count a WRTE never meets a backlog. */
  lemma WrteFindsNoBacklog(s: Sock, R: End, sr: Link, rs: Link)
    requires Dir(R, Live(s), rs, sr) && rs.flight != [] && rs.flight[0].Wrte?
    ensures s.backlog == []
  {
    assert Wrtes(rs.flight) >= 1;
  }

  lemma DeliverKeeps(S: End, R: End, sr: Link, rs: Link, me: nat, accept: bool, k: nat, stop: Stop)
    requires Both(S, R, sr, rs) && !S.Absent? && rs.flight != [] && !rs.flight[0].Open?
    requires S.Live? && S.s.peer.None? ==> rs.flight[0].Okay?
    ensures var (e, outs) := OnMsg(S, me, rs.flight[0], accept, k, stop);
            Both(e, R, sr.Send(Msgs(outs)), rs.Take())
  {
    SendNothing(sr);
    var m := rs.flight[0];
    if !S.Live? {
      IgnoredKeeps(S, R, sr, rs);
    } else if m.Okay? {
      OkayKeeps(S.s, R, sr, rs);
    } else if m.Clse? {
      ClseKeeps(S.s, R, sr, rs);
    } else {
      WrteFindsNoBacklog(S.s, R, sr, rs);
      var n := Min(k, |m.data|);
      var s1 := S.s.(output := S.s.output + m.data[..n]);
      if n == |m.data| {
        assert m.data[..n] == m.data;
        SendOut(sr, Out(m.from, Okay(me)));
        WrteDone(S.s, s1, me, R, sr, rs);
      } else if stop.Blocked? {
        WrteHeld(S.s, s1.(backlog := [m.data[n..]]), n, R, sr, rs);
      } else {
        WrteFailed(S.s, s1, n, R, sr, rs);
      }
    }
  }

  /** Reading the fd: the token turns into a WRTE. */
  lemma WrteSent(s: Sock, s': Sock, me: nat, data: seq<byte>, R: End, sr: Link, rs: Link)
    requires Both(Live(s), R, sr, rs) && s.armed
    requires s' == s.(input := s.input + data, armed := false)
    ensures Both(Live(s'), R, sr.Send([Wrte(me, data)]), rs)
  {
    SendFacts(sr, Wrte(me, data));
    var sr' := sr.Send([Wrte(me, data)]);
    assert Flow(Live(s'), R, sr', rs);
    WrteSentDelivery(s, s', me, data, R, sr, rs);
    assert Closing(Live(s'), R, sr') by { assert NoClse(sr'.Log()) && sr'.past == sr.past; }
    ReceiverMoves(R, Live(s), Live(s'), rs, rs, sr, sr');
  }

  lemma WrteSentDelivery(s: Sock, s': Sock, me: nat, data: seq<byte>, R: End, sr: Link, rs: Link)
    requires Flow(Live(s), R, sr, rs) && Delivery(Live(s), R, sr, rs) && s.armed
    requires s'.input == s.input + data
    ensures Delivery(Live(s'), R, sr.Send([Wrte(me, data)]), rs)
  {
    SendFacts(sr, Wrte(me, data));
    var sr' := sr.Send([Wrte(me, data)]);
    Regroup(Data(sr.past), Data(sr.flight), data);
    assert s.input <= s'.input;
    assert !Holding(R);
    if R.Live? {
      Regroup(R.s.output + Flat(R.s.backlog), Data(sr.flight), data);
    }
  }

  lemma ReadKeeps(S: End, R: End, sr: Link, rs: Link, me: nat, data: seq<byte>, eof: bool)
    requires Both(S, R, sr, rs)
    requires Armed(S) ==> S.s.peer.Some?
    ensures var (e, outs) := OnRead(S, me, data, eof); Both(e, R, sr.Send(Msgs(outs)), rs)
  {
    SendNothing(sr);
    if Armed(S) && |data| <= MAX_PAYLOAD {
      if data != [] {
        ReadDataKeeps(S.s, R, sr, rs, me, data, eof);
      } else if eof {
        assert OnRead(S, me, data, eof).1 == Close(S.s, LocalEof).1;
        CloseKeeps(S.s, LocalEof, R, sr, rs);
      }
    }
  }

  lemma ReadDataKeeps(s: Sock, R: End, sr: Link, rs: Link, me: nat, data: seq<byte>, eof: bool)
    requires Both(Live(s), R, sr, rs) && s.armed && s.peer.Some? && data != [] && |data| <= MAX_PAYLOAD
    ensures var (e, outs) := OnRead(Live(s), me, data, eof); Both(e, R, sr.Send(Msgs(outs)), rs)
  {
    var s1, sr1 := s.(input := s.input + data, armed := false), sr.Send([Wrte(me, data)]);
    WrteSent(s, s1, me, data, R, sr, rs);
    SendOut(sr, Out(s.peer.value, Wrte(me, data)));
    if eof {
      CloseKeeps(s1, LocalEof, R, sr1, rs);
      SendTwo(sr, Out(s.peer.value, Wrte(me, data)), Out(s.peer.value, Clse));
    }
  }

  lemma SendTwo(q: Link, a: Out, b: Out)
    ensures q.Send(Msgs([a] + [b])) == q.Send([a.msg]).Send(Msgs([b]))
  {
    assert Msgs([a] + [b]) == [a.msg] + Msgs([b]);
  }

  /** Bytes moved from backlog to output. */
  lemma BytesMove(s: Sock, n: nat, s1: Sock)
    requires n <= |Flat(s.backlog)|
    requires s1 == s.(output := s.output + Flat(s.backlog)[..n], backlog := DropBytes(s.backlog, n))
    ensures s1.output + Flat(s1.backlog) == s.output + Flat(s.backlog)
    ensures s1.backlog == [] ==> s.backlog == [] || n == |Flat(s.backlog)|
  {
    DropBytesLeaves(s.backlog, n);
    var b := Flat(s.backlog);
    assert b == b[..n] + b[n..];
    Regroup(s.output, b[..n], b[n..]);
  }

  lemma LiveWriteKeeps(s: Sock, R: End, sr: Link, rs: Link, me: nat, k: nat, stop: Stop)
    requires Both(Live(s), R, sr, rs) && s.backlog != [] && s.peer.Some?
    ensures var (e, outs) := OnWrite(Live(s), me, k, stop); Both(e, R, sr.Send(Msgs(outs)), rs)
  {
    var n := Min(k, |Flat(s.backlog)|);
    var s1 := s.(output := s.output + Flat(s.backlog)[..n], backlog := DropBytes(s.backlog, n));
    BytesMove(s, n, s1);
    if s1.backlog == [] {
      SendOut(sr, Out(s.peer.value, Okay(me)));
      BacklogWritten(s, s1, R, sr, rs, me);
    } else {
      SendNothing(sr);
      BacklogLeft(s, s1, R, sr, rs);
      if stop.Failed? {
        CloseKeeps(s1, Broken, R, sr, rs);
      }
    }
  }

  lemma BacklogWritten(s: Sock, s1: Sock, R: End, sr: Link, rs: Link, me: nat)
    requires Both(Live(s), R, sr, rs) && s.backlog != [] && s1.backlog == []
    requires s1 == s.(output := s1.output, backlog := s1.backlog)
    requires s1.output + Flat(s1.backlog) == s.output + Flat(s.backlog)
    ensures Both(Live(s1), R, sr.Send([Okay(me)]), rs)
  {
    SendFacts(sr, Okay(me));
    SenderFrame(Live(s), Live(s1), R, sr, sr.Send([Okay(me)]), rs, rs, me);
    ReceiverMoves(R, Live(s), Live(s1), rs, rs, sr, sr.Send([Okay(me)]));
  }

  lemma BacklogLeft(s: Sock, s1: Sock, R: End, sr: Link, rs: Link)
    requires Both(Live(s), R, sr, rs) && s.backlog != [] && s1.backlog != []
    requires s1 == s.(output := s1.output, backlog := s1.backlog)
    requires s1.output + Flat(s1.backlog) == s.output + Flat(s.backlog)
    ensures Both(Live(s1), R, sr, rs)
  {
    SenderFrame(Live(s), Live(s1), R, sr, sr, rs, rs, 0);
    ReceiverMoves(R, Live(s), Live(s1), rs, rs, sr, sr);
  }

  lemma LingeringWriteKeeps(s: Sock, R: End, sr: Link, rs: Link, me: nat, k: nat, stop: Stop)
    requires Both(Lingering(s), R, sr, rs)
    ensures var (e, outs) := OnWrite(Lingering(s), me, k, stop); Both(e, R, sr.Send(Msgs(outs)), rs)
  {
    var n := Min(k, |Flat(s.backlog)|);
    var s1 := s.(output := s.output + Flat(s.backlog)[..n], backlog := DropBytes(s.backlog, n));
    BytesMove(s, n, s1);
    SendNothing(sr);
    var e := OnWrite(Lingering(s), me, k, stop).0;
    assert e.s == s1;
    assert s1.output <= s1.output + Flat(s1.backlog);
    assert Dir(e, R, sr, rs);
    assert Dir(R, e, rs, sr);
  }

  lemma StaleReadKeeps(S: End, R: End, sr: Link, rs: Link, eof: bool)
    requires Both(S, R, sr, rs)
    ensures var (e, outs) := OnStaleRead(S, eof); Both(e, R, sr.Send(Msgs(outs)), rs)
  {
    SendNothing(sr);
  }

  lemma WriteKeeps(S: End, R: End, sr: Link, rs: Link, me: nat, k: nat, stop: Stop)
    requires Both(S, R, sr, rs) && (S.Live? && S.s.peer.None? ==> S.s == FRESH)
    ensures var (e, outs) := OnWrite(S, me, k, stop); Both(e, R, sr.Send(Msgs(outs)), rs)
  {
    SendNothing(sr);
    if S.Live? && S.s.backlog != [] {
      LiveWriteKeeps(S.s, R, sr, rs, me, k, stop);
    } else if S.Lingering? {
      LingeringWriteKeeps(S.s, R, sr, rs, me, k, stop);
    }
  }

  lemma ActDeliver(S: End, R: End, sr: Link, rs: Link, ev: Event)
    requires Both(S, R, sr, rs) && !S.Absent? && ev.Deliver?
    requires rs.flight != [] ==> !rs.flight[0].Open? && (S.Live? && S.s.peer.None? ==> rs.flight[0].Okay?)
    ensures var (e, sr', rs') := Act(S, sr, rs, ev); Both(e, R, sr', rs')
  {
    if rs.flight != [] { DeliverKeeps(S, R, sr, rs, ev.me, ev.accept, ev.k, ev.stop); }
  }

  lemma ActRead(S: End, R: End, sr: Link, rs: Link, ev: Event)
    requires Both(S, R, sr, rs) && ev.Read? && (Armed(S) ==> S.s.peer.Some?)
    ensures var (e, sr', rs') := Act(S, sr, rs, ev); Both(e, R, sr', rs')
  {
    ReadKeeps(S, R, sr, rs, ev.me, ev.data, ev.eof);
  }

  lemma ActWrite(S: End, R: End, sr: Link, rs: Link, ev: Event)
    requires Both(S, R, sr, rs) && ev.Write? && (S.Live? && S.s.peer.None? ==> S.s == FRESH)
    ensures var (e, sr', rs') := Act(S, sr, rs, ev); Both(e, R, sr', rs')
  {
    WriteKeeps(S, R, sr, rs, ev.me, ev.k, ev.stop);
  }

  /** Any event at an end of an established stream. */
  lemma ActKeeps(S: End, R: End, sr: Link, rs: Link, ev: Event)
    requires Both(S, R, sr, rs) && !S.Absent?
    requires S.Live? && S.s.peer.None? ==> S.s == FRESH
    requires ev.Deliver? && rs.flight != [] ==>
      !rs.flight[0].Open? && (S.Live? && S.s.peer.None? ==> rs.flight[0].Okay?)
    ensures var (e, sr', rs') := Act(S, sr, rs, ev); Both(e, R, sr', rs')
  {
    match ev
    case Start(_) =>
    case Deliver(_, _, _, _) => ActDeliver(S, R, sr, rs, ev);
    case Read(_, _, _) => ActRead(S, R, sr, rs, ev);
    case Write(_, _, _) => ActWrite(S, R, sr, rs, ev);
    case StaleRead(eof) => StaleReadKeeps(S, R, sr, rs, eof);
  }

  /** An event at an established end leaves the handshake facts alone. */
  lemma ActKeepsPhase(S: End, sr: Link, rs: Link, ev: Event)
    requires !S.Absent?
    requires ev.Deliver? && rs.flight != [] ==> !rs.flight[0].Open?
    ensures var (e, sr', rs') := Act(S, sr, rs, ev);
      && !e.Absent?
      && (e.Live? ==> S.Live? && (S.s.peer.Some? ==> e.s.peer.Some?))
      && (exists ms :: sr' == sr.Send(ms) && NoOpen(ms))
      && (rs' == rs || (rs.flight != [] && rs' == rs.Take()))
  {
    SendNothing(sr);
    assert NoOpen([]);
    match ev
    case Start(_) => assert sr == sr.Send([]);
    case Deliver(me, accept, k, stop) =>
      if rs.flight == [] {
        assert sr == sr.Send([]);
      } else {
        assert NoOpen(Msgs(OnMsg(S, me, rs.flight[0], accept, k, stop).1));
      }
    case Read(me, data, eof) => assert NoOpen(Msgs(OnRead(S, me, data, eof).1));
    case Write(me, k, stop) => assert NoOpen(Msgs(OnWrite(S, me, k, stop).1));
    case StaleRead(eof) => assert NoOpen(Msgs(OnStaleRead(S, eof).1));
  }

  /** A socket still waiting for its first OKAY reacts to nothing else. */
  lemma UnlinkedWaits(sr: Link, rs: Link, ev: Event)
    requires rs.flight != [] && rs.flight[0].Okay?
    ensures var (e, sr', rs') := Act(Live(FRESH), sr, rs, ev);
      (e == Live(FRESH) && sr' == sr && rs' == rs) || (e.Live? && e.s.peer.Some?)
  {
    SendNothing(sr);
  }

  lemma SendKeepsNoOpen(q: Link, q': Link)
    requires exists ms :: q' == q.Send(ms) && NoOpen(ms)
    ensures NoOpen(q.flight) ==> NoOpen(q'.flight)
    ensures q'.past == q.past && q.flight <= q'.flight
  {
  }

  lemma PhaseAfterX(v: Stream, ev: Event)
    requires Phase(v) && !v.y.Absent?
    ensures Phase(Apply(v, true, ev))
  {
    ActKeepsPhase(v.x, v.xy, v.yx, ev);
    SendKeepsNoOpen(v.xy, Apply(v, true, ev).xy);
    if v.x.Live? && v.x.s.peer.None? { UnlinkedWaits(v.xy, v.yx, ev); }
  }

  lemma PhaseAfterY(v: Stream, ev: Event)
    requires Phase(v) && !v.y.Absent?
    ensures Phase(Apply(v, false, ev))
  {
    ActKeepsPhase(v.y, v.yx, v.xy, ev);
    if !ev.Start? { SendKeepsNoOpen(v.yx, Apply(v, false, ev).yx); }
  }

  lemma EstablishedStep(v: Stream, atX: bool, ev: Event)
    requires Inv(v) && !v.y.Absent?
    ensures Inv(Apply(v, atX, ev))
  {
    if atX {
      ActKeeps(v.x, v.y, v.xy, v.yx, ev);
      PhaseAfterX(v, ev);
    } else {
      PhaseAfterY(v, ev);
      if !ev.Start? { ActKeeps(v.y, v.x, v.yx, v.xy, ev); }
    }
  }

  /** Before the OPEN is answered nothing else can change the stream. */
  lemma HandshakeQuiet(v: Stream, atX: bool, ev: Event)
    requires Phase(v) && v.y.Absent?
    requires ev.Deliver? ==> if atX then v.yx.flight == [] else v.xy.flight == []
    requires !(v == IDLE && atX && ev.Start?)
    ensures Apply(v, atX, ev) == v
  {
    SendNothing(v.xy);
    SendNothing(v.yx);
  }

  lemma HandshakeStep(v: Stream, atX: bool, ev: Event)
    requires Inv(v) && v.y.Absent?
    ensures Inv(Apply(v, atX, ev))
  {
    if v.xy.flight != [] && !atX && ev.Deliver? {
      OpenAnswered(v, ev);
    } else if v.yx.flight != [] && atX && ev.Deliver? {
      OpenRefused(v, ev);
    } else if v == IDLE && atX && ev.Start? {
      OpenSent(ev);
    } else {
      HandshakeQuiet(v, atX, ev);
    }
  }

  lemma OpenSent(ev: Event)
    requires ev.Start?
    ensures Inv(Apply(IDLE, true, ev))
  {
    Singles(Open(ev.me));
    assert Apply(IDLE, true, ev).xy == Link([], [Open(ev.me)]);
  }

  lemma RefusedInv(open: Msg)
    requires open.Open?
    ensures Inv(Stream(Gone(FRESH, PeerClosed), Absent, Link([open], []), Link([Clse], [])))
  {
    Singles(Clse);
    Singles(open);
  }

  lemma OpenRefused(v: Stream, ev: Event)
    requires Phase(v) && v.y.Absent? && v.yx.flight != [] && ev.Deliver?
    ensures Inv(Apply(v, true, ev))
  {
    var v' := Apply(v, true, ev);
    SendNothing(v.xy);
    assert v'.yx == Link([Clse], []) && v'.x == Gone(FRESH, PeerClosed);
    assert v'.xy == Link([v.xy.past[0]], []);
    RefusedInv(v.xy.past[0]);
  }

  lemma AcceptedInv(open: Msg, me: nat)
    requires open.Open?
    ensures Inv(Stream(Live(FRESH), Live(FRESH.(peer := Some(open.from), armed := true)), Link([open], []), Link([], [Okay(me)])))
  {
    Singles(open);
    Singles(Okay(me));
  }

  lemma AnsweredWithClse(open: Msg)
    requires open.Open?
    ensures Inv(Stream(Live(FRESH), Absent, Link([open], []), Link([], [Clse])))
  {
    Singles(open);
    Singles(Clse);
  }

  /** The OPEN arrives: the stream is established with one token each way, or refused. */
  lemma OpenAnswered(v: Stream, ev: Event)
    requires Phase(v) && v.y.Absent? && v.xy.flight != [] && ev.Deliver?
    ensures Inv(Apply(v, false, ev))
  {
    var open, v' := v.xy.flight[0], Apply(v, false, ev);
    assert v'.xy == Link([open], []);
    if ev.accept {
      SendOut(v.yx, Out(open.from, Okay(ev.me)));
      assert v'.yx == Link([], [Okay(ev.me)]);
      AcceptedInv(open, ev.me);
    } else {
      SendOut(v.yx, Out(open.from, Clse));
      assert v'.yx == Link([], [Clse]);
      AnsweredWithClse(open);
    }
  }

  /** Every event keeps the invariant. */
  lemma StepKeepsInv(v: Stream, atX: bool, ev: Event)
    requires Inv(v)
    ensures Inv(Apply(v, atX, ev))
  {
    if v.y.Absent? { HandshakeStep(v, atX, ev); } else { EstablishedStep(v, atX, ev); }
  }

  // ---- closing always quiesces ----

  function Weight(ms: seq<Msg>): nat {
    if ms == [] then 0
    else (if ms[0].Open? then 3 else if ms[0].Wrte? then 2 else 1) + Weight(ms[1..])
  }

  lemma {:induction false} WeightAppend(q: seq<Msg>, ms: seq<Msg>)
    ensures Weight(q + ms) == Weight(q) + Weight(ms)
  {
    if q == [] {
      assert q + ms == ms;
    } else {
      assert (q + ms)[1..] == q[1..] + ms;
      WeightAppend(q[1..], ms);
    }
  }

  function Unsettled(v: Stream): nat {
    Weight(v.xy.flight) + Weight(v.yx.flight) + Bit(v.x.Live?) + Bit(v.y.Live?)
  }

  lemma ReplyIsLighter(e: End, m: Msg, me: nat, accept: bool, k: nat, stop: Stop)
    ensures var (e', outs) := OnMsg(e, me, m, accept, k, stop);
      Weight(Msgs(outs)) + Bit(e'.Live?) < Weight([m]) + Bit(e.Live?)
  {
    var outs := OnMsg(e, me, m, accept, k, stop).1;
    assert |outs| <= 1;
    if outs != [] {
      assert Msgs(outs) == [outs[0].msg];
      assert Weight([outs[0].msg]) == 1;
    }
    assert [m][1..] == [];
  }

  /**
   * Whatever the file descriptors do and in whatever order the two links are served,
   * delivering a packet brings the stream strictly closer to empty links.
   */
  lemma DeliveryRunsDry(v: Stream, atX: bool, ev: Event)
    requires ev.Deliver? && (if atX then v.yx else v.xy).flight != []
    ensures Unsettled(Apply(v, atX, ev)) < Unsettled(v)
  {
    var out, inn := if atX then v.xy else v.yx, if atX then v.yx else v.xy;
    var e := if atX then v.x else v.y;
    var m := inn.flight[0];
    ReplyIsLighter(e, m, ev.me, ev.accept, ev.k, ev.stop);
    WeightAppend(out.flight, Msgs(OnMsg(e, ev.me, m, ev.accept, ev.k, ev.stop).1));
    assert inn.flight == [m] + inn.flight[1..];
    WeightAppend([m], inn.flight[1..]);
  }

  /** With the links empty, one closed end means both are closed. */
  lemma DryMeansClosed(v: Stream)
    requires Inv(v) && v.xy.flight == [] && v.yx.flight == [] && (Closed(v.x) || Closed(v.y))
    ensures !v.x.Live? && !v.y.Live?
  {
    assert v.xy.Log() == v.xy.past && v.yx.Log() == v.yx.past;
  }

  /** An event at a closed end sends nothing, loses no packet and leaves the end closed. */
  lemma ClosedActs(e: End, out: Link, inn: Link, ev: Event)
    requires Closed(e)
    ensures var (e', out', inn') := Act(e, out, inn, ev);
      Closed(e') && out' == out && inn'.Log() == inn.Log()
  {
    SendNothing(out);
    if inn.flight != [] { TakeFacts(inn); }
  }

  /** Once both ends are closed no event sends anything, and the ends stay closed. */
  lemma ClosedIsSilent(v: Stream, atX: bool, ev: Event)
    requires Closed(v.x) && Closed(v.y)
    ensures var v' := Apply(v, atX, ev);
      && Closed(v'.x) && Closed(v'.y)
      && v'.xy.Log() == v.xy.Log() && v'.yx.Log() == v.yx.Log()
  {
    if atX { ClosedActs(v.x, v.xy, v.yx, ev); } else { ClosedActs(v.y, v.yx, v.xy, ev); }
  }

  // ---- when an end is destroyed, and when everything sent to it was written by then ----

  /** The events that destroy an end: its state, the link it receives from, and what its fd does. */
  predicate Destroys(e: End, inn: Link, ev: Event) {
    match ev
    case Start(_) => false
    case Deliver(_, _, k, stop) =>
      && e.Live? && e.s.backlog == [] && inn.flight != []
      && (inn.flight[0].Clse? || (inn.flight[0].Wrte? && k < |inn.flight[0].data| && stop.Failed?))
    case Read(_, data, eof) => Armed(e) && e.s.backlog == [] && |data| <= MAX_PAYLOAD && eof
    case Write(_, k, stop) => e.Lingering? && e.s.backlog != [] && (|Flat(e.s.backlog)| <= k || stop.Failed?)
    case StaleRead(eof) => e.Lingering? && eof
  }

  /**
   * Nothing is lost by that event: a failing write had taken everything, an end of file on
   * the own fd found no payload on its way, a stale one found no bytes left to write.
   */
  predicate LosesNothing(e: End, inn: Link, ev: Event) {
    match ev
    case Start(_) => true
    case Deliver(_, _, k, _) => inn.flight != [] && inn.flight[0].Wrte? ==> |inn.flight[0].data| <= k
    case Read(_, _, _) => Data(inn.flight) == []
    case Write(_, k, _) => Holding(e) ==> |Flat(e.s.backlog)| <= k
    case StaleRead(_) => Holding(e) ==> Flat(e.s.backlog) == []
  }

  lemma DestroyedWhen(e: End, out: Link, inn: Link, ev: Event)
    requires !e.Gone?
    ensures Act(e, out, inn, ev).0.Gone? <==> Destroys(e, inn, ev)
  {
    if ev.Write? && (e.Live? || e.Lingering?) {
      DropBytesLeaves(e.s.backlog, Min(ev.k, |Flat(e.s.backlog)|));
    }
  }

  /** What the receiver S has written when it goes, against what R has read. */
  lemma ClseDestroys(S: End, R: End, sr: Link, rs: Link, ev: Event)
    requires Dir(R, S, rs, sr) && ev.Deliver? && Destroys(S, rs, ev) && rs.flight[0].Clse?
    ensures Output(Act(S, sr, rs, ev).0) == Input(R)
  {
    ClseArrivesLast(R, S, rs, sr);
    Singles(Clse);
    assert S.s.output + Flat(S.s.backlog) + [] == S.s.output;
  }

  lemma WrteDestroys(S: End, R: End, sr: Link, rs: Link, ev: Event)
    requires Dir(R, S, rs, sr) && ev.Deliver? && Destroys(S, rs, ev) && rs.flight[0].Wrte?
    ensures Output(Act(S, sr, rs, ev).0) != Input(R)
  {
    var d, rest := rs.flight[0].data, Data(rs.flight[1..]);
    assert |Data(rs.flight)| == |d| + |rest|;
    assert |Input(R)| == |S.s.output| + |Flat(S.s.backlog)| + |Data(rs.flight)|;
    assert |Output(Act(S, sr, rs, ev).0)| == |S.s.output| + ev.k;
  }

  lemma DeliverDestroys(S: End, R: End, sr: Link, rs: Link, ev: Event)
    requires Dir(R, S, rs, sr) && ev.Deliver? && Destroys(S, rs, ev)
    ensures Output(Act(S, sr, rs, ev).0) == Input(R) <==> LosesNothing(S, rs, ev)
  {
    if rs.flight[0].Clse? { ClseDestroys(S, R, sr, rs, ev); } else { WrteDestroys(S, R, sr, rs, ev); }
  }

  lemma EofDestroys(S: End, R: End, sr: Link, rs: Link, ev: Event)
    requires Dir(R, S, rs, sr) && ev.Read? && Destroys(S, rs, ev)
    ensures Output(Act(S, sr, rs, ev).0) == Input(R) <==> LosesNothing(S, rs, ev)
  {
    assert S.s.output + Flat(S.s.backlog) == S.s.output;
    assert |Input(R)| == |S.s.output| + |Data(rs.flight)|;
    if Data(rs.flight) == [] { assert Input(R) == S.s.output + []; }
  }

  lemma PrefixIsAll(out: seq<byte>, b: seq<byte>, n: nat)
    requires n <= |b|
    ensures out + b[..n] == out + b <==> n == |b|
  {
    assert |out + b[..n]| == |out| + n && |out + b| == |out| + |b|;
    if n == |b| { assert b[..n] == b; }
  }

  lemma WriteDestroys(S: End, R: End, sr: Link, rs: Link, ev: Event)
    requires Dir(R, S, rs, sr) && ev.Write? && Destroys(S, rs, ev)
    ensures Output(Act(S, sr, rs, ev).0) == Input(R) <==> LosesNothing(S, rs, ev)
  {
    var b := Flat(S.s.backlog);
    var n := Min(ev.k, |b|);
    DropBytesLeaves(S.s.backlog, n);
    assert Output(Act(S, sr, rs, ev).0) == S.s.output + b[..n];
    PrefixIsAll(S.s.output, b, n);
  }

  lemma StaleEofDestroys(S: End, R: End, sr: Link, rs: Link, ev: Event)
    requires Dir(R, S, rs, sr) && ev.StaleRead? && Destroys(S, rs, ev)
    ensures Output(Act(S, sr, rs, ev).0) == Input(R) <==> LosesNothing(S, rs, ev)
  {
    assert |Input(R)| == |S.s.output| + |Flat(S.s.backlog)|;
    if Flat(S.s.backlog) == [] { assert S.s.output + [] == S.s.output; }
  }

  function Here(v: Stream, atX: bool): End { if atX then v.x else v.y }
  function There(v: Stream, atX: bool): End { if atX then v.y else v.x }
  function Incoming(v: Stream, atX: bool): Link { if atX then v.yx else v.xy }

  /**
   * The exact delivery theorem, for every event at either end: the event destroys the end
   * exactly when Destroys says so, and then everything its peer had read has been written
   * exactly when LosesNothing says so.  Both look only at the state before the event.
   */
  lemma ExactDelivery(v: Stream, atX: bool, ev: Event)
    requires Inv(v) && !Here(v, atX).Gone? && (ev.Start? ==> atX)
    ensures var e, inn, v' := Here(v, atX), Incoming(v, atX), Apply(v, atX, ev);
      && (Here(v', atX).Gone? <==> Destroys(e, inn, ev))
      && (Destroys(e, inn, ev) ==>
            (Output(Here(v', atX)) == Input(There(v', atX)) <==> LosesNothing(e, inn, ev)))
  {
    var S, R := Here(v, atX), There(v, atX);
    var sr, rs := if atX then v.xy else v.yx, Incoming(v, atX);
    DestroyedWhen(S, sr, rs, ev);
    if Destroys(S, rs, ev) {
      match ev
      case Deliver(_, _, _, _) => DeliverDestroys(S, R, sr, rs, ev);
      case Read(_, _, _) => EofDestroys(S, R, sr, rs, ev);
      case Write(_, _, _) => WriteDestroys(S, R, sr, rs, ev);
      case StaleRead(_) => StaleEofDestroys(S, R, sr, rs, ev);
    }
  }

  /** The events that close a listed end; each of them tells the peer. */
  predicate Closes(e: End, inn: Link, ev: Event) {
    match ev
    case Start(_) => false
    case Deliver(_, _, k, stop) =>
      && e.Live? && inn.flight != []
      && (inn.flight[0].Clse?
          || (inn.flight[0].Wrte? && e.s.backlog == [] && k < |inn.flight[0].data| && stop.Failed?))
    case Read(_, data, eof) => Armed(e) && |data| <= MAX_PAYLOAD && eof
    case Write(_, k, stop) => e.Live? && e.s.backlog != [] && k < |Flat(e.s.backlog)| && stop.Failed?
    case StaleRead(_) => false
  }

  /** What is said of an event at a listed end. */
  ghost predicate ClosesRight(e: End, out: Link, inn: Link, ev: Event)
    requires e.Live?
  {
    var (e', out', _) := Act(e, out, inn, ev);
    && (Closed(e') <==> Closes(e, inn, ev)) && (Closed(e') || e'.Live?)
    && (Closed(e') ==> e'.s.peer.None? && !e'.s.armed)
    && (Closes(e, inn, ev) && e.s.peer.Some? ==> out'.flight != [] && out'.flight[|out'.flight| - 1] == Clse)
  }

  lemma WriteCloses(e: End, out: Link, inn: Link, ev: Event)
    requires e.Live? && ev.Write?
    ensures ClosesRight(e, out, inn, ev)
  {
    DropBytesLeaves(e.s.backlog, Min(ev.k, |Flat(e.s.backlog)|));
  }

  lemma DeliverCloses(e: End, out: Link, inn: Link, ev: Event)
    requires e.Live? && ev.Deliver?
    ensures ClosesRight(e, out, inn, ev)
  {
  }

  lemma ReadCloses(e: End, out: Link, inn: Link, ev: Event)
    requires e.Live? && (ev.Read? || ev.Start? || ev.StaleRead?)
    ensures ClosesRight(e, out, inn, ev)
  {
  }

  /** A listed end closes exactly on those events; it has no peer then, reads no more, and has sent CLSE last. */
  lemma ClosedWhen(e: End, out: Link, inn: Link, ev: Event)
    requires e.Live?
    ensures ClosesRight(e, out, inn, ev)
  {
    match ev
    case Write(_, _, _) => WriteCloses(e, out, inn, ev);
    case Deliver(_, _, _, _) => DeliverCloses(e, out, inn, ev);
    case _ => ReadCloses(e, out, inn, ev);
  }

  // ---- what an event takes from and gives to the file descriptor ----

  /** The bytes a read event takes from the fd of an end: all that the fd gave, if it was armed. */
  function TakenFrom(e: End, ev: Event): seq<byte> {
    if ev.Read? && Armed(e) && |ev.data| <= 4096 then ev.data else []
  }

  /** The bytes an event gives to the fd: as many of the waiting ones as it accepts, k. */
  function GivenTo(e: End, inn: Link, ev: Event): seq<byte> {
    if ev.Deliver? && e.Live? && e.s.backlog == [] && inn.flight != [] && inn.flight[0].Wrte? then
      inn.flight[0].data[..Min(ev.k, |inn.flight[0].data|)]
    else if ev.Write? && Holding(e) then
      Flat(e.s.backlog)[..Min(ev.k, |Flat(e.s.backlog)|)]
    else []
  }

  lemma DeliverGrows(e: End, out: Link, inn: Link, ev: Event)
    requires ev.Deliver?
    ensures var e' := Act(e, out, inn, ev).0;
      Input(e') == Input(e) && Output(e') == Output(e) + GivenTo(e, inn, ev)
  {
    assert Output(e) + [] == Output(e);
  }

  lemma ReadGrows(e: End, out: Link, inn: Link, ev: Event)
    requires ev.Read? && (Armed(e) ==> e.s.peer.Some?)
    ensures var e' := Act(e, out, inn, ev).0;
      Input(e') == Input(e) + TakenFrom(e, ev) && Output(e') == Output(e)
  {
    assert Input(e) + [] == Input(e);
  }

  lemma WriteGrows(e: End, out: Link, inn: Link, ev: Event)
    requires ev.Write?
    ensures var e' := Act(e, out, inn, ev).0;
      Input(e') == Input(e) && Output(e') == Output(e) + GivenTo(e, inn, ev)
  {
    assert Output(e) + [] == Output(e);
  }

  lemma OthersGrowNothing(e: End, out: Link, inn: Link, ev: Event)
    requires ev.Start? || ev.StaleRead?
    ensures var e' := Act(e, out, inn, ev).0; Input(e') == Input(e) && Output(e') == Output(e)
  {
  }

  /** The histories grow by exactly that. */
  lemma HistoriesGrow(e: End, out: Link, inn: Link, ev: Event)
    requires Armed(e) ==> e.s.peer.Some?
    ensures var e' := Act(e, out, inn, ev).0;
      && Input(e') == Input(e) + TakenFrom(e, ev)
      && Output(e') == Output(e) + GivenTo(e, inn, ev)
  {
    var e' := Act(e, out, inn, ev).0;
    match ev
    case Deliver(_, _, _, _) => DeliverGrows(e, out, inn, ev);
    case Read(_, _, _) => ReadGrows(e, out, inn, ev);
    case Write(_, _, _) => WriteGrows(e, out, inn, ev);
    case _ => OthersGrowNothing(e, out, inn, ev);
    assert Input(e) + [] == Input(e) && Output(e) + [] == Output(e);
  }

  /** A read event puts all it took on the link, in one WRTE, and nothing else but a CLSE after it. */
  lemma ReadIsSent(e: End, out: Link, inn: Link, ev: Event)
    requires ev.Read? && Armed(e) && e.s.peer.Some? && |ev.data| <= 4096
    ensures var out' := Act(e, out, inn, ev).1;
      out' == out.Send((if ev.data == [] then [] else [Wrte(ev.me, ev.data)]) + (if ev.eof then [Clse] else []))
  {
    var outs := OnRead(e, ev.me, ev.data, ev.eof).1;
    assert Msgs(outs) == (if ev.data == [] then [] else [Wrte(ev.me, ev.data)]) + (if ev.eof then [Clse] else []);
  }

  /** A destroyed end never changes again, and a closed one reads nothing more. */
  lemma GoneStays(v: Stream, atX: bool, ev: Event, side: bool)
    requires Here(v, side).Gone?
    ensures Here(Apply(v, atX, ev), side) == Here(v, side)
  {
  }

  lemma ClosedReadsNothing(v: Stream, atX: bool, ev: Event, side: bool)
    requires Closed(Here(v, side))
    ensures var v' := Apply(v, atX, ev);
      Closed(Here(v', side)) && Input(Here(v', side)) == Input(Here(v, side))
  {
  }

  /** A run of a single stream. */
  function Replay(evs: seq<(bool, Event)>): Stream {
    if evs == [] then IDLE
    else Apply(Replay(evs[..|evs| - 1]), evs[|evs| - 1].0, evs[|evs| - 1].1)
  }

  ghost predicate Reachable(v: Stream) { exists evs :: Replay(evs) == v }

  lemma ReachableNext(v: Stream, atX: bool, ev: Event)
    requires Reachable(v)
    ensures Reachable(Apply(v, atX, ev))
  {
    var evs :| Replay(evs) == v;
    assert (evs + [(atX, ev)])[..|evs|] == evs;
    assert Replay(evs + [(atX, ev)]) == Apply(v, atX, ev);
  }

  const ANSWER := Deliver(1, true, 0, Blocked)
  const LINKED := FRESH.(peer := Some(1), armed := true)
  const OPENED := Stream(Live(FRESH), Absent, Link([], [Open(1)]), Link([], []))
  const ACCEPTED := Stream(Live(FRESH), Live(LINKED), Link([Open(1)], []), Link([], [Okay(1)]))
  const ESTABLISHED := Stream(Live(LINKED), Live(LINKED), Link([Open(1)], []), Link([Okay(1)], []))

  lemma OpenedNext()
    ensures Apply(IDLE, true, Start(1)) == OPENED
  {
  }

  lemma AcceptedNext()
    ensures Apply(OPENED, false, ANSWER) == ACCEPTED
  {
    SendOut(OPENED.yx, Out(1, Okay(1)));
  }

  lemma EstablishedNext()
    ensures Apply(ACCEPTED, true, ANSWER) == ESTABLISHED
  {
    SendNothing(ACCEPTED.xy);
  }

  lemma Establish()
    ensures Reachable(ESTABLISHED)
  {
    assert Replay([]) == IDLE;
    ReachableNext(IDLE, true, Start(1));
    OpenedNext();
    ReachableNext(OPENED, false, ANSWER);
    AcceptedNext();
    ReachableNext(ACCEPTED, true, ANSWER);
    EstablishedNext();
  }

  /** Losses are reachable: one byte on its way, end of file at the other end. */
  lemma EofLossIsReachable()
    ensures var v1 := Apply(ESTABLISHED, true, Read(1, [7], false));
      var v := Apply(v1, false, Read(1, [], true));
      Reachable(v) && v.y.Gone? && v.y.why.LocalEof? && Input(v.x) == [7] && Output(v.y) == []
  {
    Establish();
    ReachableNext(ESTABLISHED, true, Read(1, [7], false));
    ReachableNext(Apply(ESTABLISHED, true, Read(1, [7], false)), false, Read(1, [], true));
  }

  /** The states of the run below before its last event. */
  lemma StaleEofStates()
    ensures var v1 := Apply(ESTABLISHED, true, Read(1, [7], true));
      var v2 := Apply(v1, false, ANSWER);
      var v3 := Apply(v2, false, ANSWER);
      && v1.x.Gone? && Input(v1.x) == [7] && v1.xy.flight == [Wrte(1, [7]), Clse]
      && v2.x == v1.x && v2.y == Live(LINKED.(backlog := [[7]])) && v2.xy.flight == [Clse]
      && v3.x == v2.x && v3.y.Lingering? && v3.y.s.output == []
  {
    var v1 := Apply(ESTABLISHED, true, Read(1, [7], true));
    assert v1.xy.flight == [Wrte(1, [7]), Clse];
    var v2 := Apply(v1, false, ANSWER);
    assert v2.y == Live(LINKED.(backlog := [[7]]));
  }

  /**
   * The sender reads one byte and ends in good order; the receiver's fd takes nothing; the
   * CLSE moves it to the closing list; a read event pending from before finds end of file.
   */
  lemma StaleEofLossIsReachable()
    ensures var v1 := Apply(ESTABLISHED, true, Read(1, [7], true));
      var v3 := Apply(Apply(v1, false, ANSWER), false, ANSWER);
      var v := Apply(v3, false, StaleRead(true));
      Reachable(v) && v.x.Gone? && v.y.Gone? && Input(v.x) == [7] && Output(v.y) == []
  {
    var v1 := Apply(ESTABLISHED, true, Read(1, [7], true));
    var v2 := Apply(v1, false, ANSWER);
    Establish();
    ReachableNext(ESTABLISHED, true, Read(1, [7], true));
    ReachableNext(v1, false, ANSWER);
    ReachableNext(v2, false, ANSWER);
    ReachableNext(Apply(v2, false, ANSWER), false, StaleRead(true));
    StaleEofStates();
  }
}
