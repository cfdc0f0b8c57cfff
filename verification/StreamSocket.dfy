/**
 * One end of an ADB stream: a local asocket together with the remote asocket it is
 * linked to (adbd/src/sockets.c, handle_packet in adbd/src/adb.c).
 *
 * The functions here say what one packet or one file-descriptor event does to one
 * end and which packets it sends.  They are shared by the single-stream protocol
 * (module Stream), by the multiplexer (module Mux) and by the imperative endpoint
 * (module Endpoint), whose methods are proved to compute them.
 */
module StreamSocket {
  import opened Common

  /** The stream packets.  `from` is arg0 where the code fills it in; CLSE leaves it 0. */
  datatype Msg =
    | Open(from: nat)
    | Okay(from: nat)
    | Clse
    | Wrte(from: nat, data: seq<byte>)

  /** A packet leaving this end; `to` is the id put in arg1. */
  datatype Out = Out(to: nat, msg: Msg)

  /**
   * A local socket.  `peer` is the id held by the linked remote socket, `armed` is
   * FDE_READ, `backlog` is the pkt_first list (what is left of each packet; FDE_WRITE
   * is armed exactly while it is nonempty).  `input` and `output` are histories: all
   * bytes read from the fd and handed to the peer, all bytes written to the fd.
   */
  datatype Sock = Sock(
    peer: Option<nat>, armed: bool, backlog: seq<seq<byte>>,
    input: seq<byte>, output: seq<byte>)

  /** Why a socket was destroyed. */
  datatype Cause =
    | PeerClosed  // CLSE arrived and nothing was left to write
    | Drained     // on the closing list, last byte written
    | LocalEof    // own fd ended and nothing was left to write
    | Broken      // a write failed, or an end of file was seen while already closing

  /** Live: on local_socket_list.  Lingering: on local_socket_closing_list. */
  datatype End =
    | Absent
    | Live(s: Sock)
    | Lingering(s: Sock)
    | Gone(s: Sock, why: Cause)

  /** What stops a write that did not take everything: EAGAIN, or anything else. */
  datatype Stop = Blocked | Failed

  const FRESH := Sock(None, false, [], [], [])

  /** The backlog after `k` of its bytes have been written. */
  function DropBytes(backlog: seq<seq<byte>>, k: nat): seq<seq<byte>> {
    if backlog == [] then []
    else if |backlog[0]| <= k then DropBytes(backlog[1..], k - |backlog[0]|)
    else [backlog[0][k..]] + backlog[1..]
  }

  lemma {:induction false} DropBytesLeaves(backlog: seq<seq<byte>>, k: nat)
    ensures Flat(DropBytes(backlog, k)) == Flat(backlog)[Min(k, |Flat(backlog)|)..]
    ensures DropBytes(backlog, k) == [] <==> backlog == [] || k >= |Flat(backlog)|
  {
    if backlog != [] {
      if |backlog[0]| <= k {
        DropBytesLeaves(backlog[1..], k - |backlog[0]|);
      } else {
        assert ([backlog[0][k..]] + backlog[1..])[1..] == backlog[1..];
      }
    }
  }

  /** local_socket_close_locked on a listed socket with a remote peer or none. */
  function Close(s: Sock, why: Cause): (End, seq<Out>) {
    var outs := if s.peer.Some? then [Out(s.peer.value, Clse)] else [];
    var cut := s.(peer := None, armed := false);
    (if s.backlog == [] then Gone(cut, why) else Lingering(cut), outs)
  }

  /** local_socket_enqueue, and the OKAY that handle_packet sends when it returns 0. */
  function Enqueue(s: Sock, me: nat, from: nat, data: seq<byte>, k: nat, stop: Stop): (End, seq<Out>) {
    if s.backlog != [] then
      (Live(s.(backlog := s.backlog + [data])), [])
    else
      var n := Min(k, |data|);
      var s1 := s.(output := s.output + data[..n]);
      if n == |data| then (Live(s1), [Out(from, Okay(me))])
      else if stop.Blocked? then (Live(s1.(backlog := [data[n..]])), [])
      else Close(s1, Broken)
  }

  /**
   * Whatever its queue and whatever the fd takes, a socket that stays open has written or queued
   * every byte, in order, and the OKAY is sent exactly when nothing is left to write.
   */
  lemma EnqueueConserves(s: Sock, me: nat, from: nat, data: seq<byte>, k: nat, stop: Stop)
    ensures var (e, outs) := Enqueue(s, me, from, data, k, stop);
      && (e.Live? ==> e.s.output + Flat(e.s.backlog) == s.output + Flat(s.backlog) + data)
      && (outs == [Out(from, Okay(me))] <==> e.Live? && e.s.backlog == [])
      && (e.Live? <==> s.backlog != [] || |data| <= k || stop.Blocked?)
  {
    if s.backlog != [] {
      FlatAppend(s.backlog, [data]);
      FlatOne(data);
      Regroup(s.output, Flat(s.backlog), data);
    } else {
      var n := Min(k, |data|);
      FlatOne(data[n..]);
      assert data == data[..n] + data[n..];
    }
  }

  /** handle_packet for OPEN, OKAY, CLSE and WRTE, at the end the packet is addressed to. */
  function OnMsg(e: End, me: nat, m: Msg, accept: bool, k: nat, stop: Stop): (End, seq<Out>) {
    match m
    case Open(from) =>
      if !e.Absent? then (e, [])
      else if accept then (Live(FRESH.(peer := Some(from), armed := true)), [Out(from, Okay(me))])
      else (e, [Out(from, Clse)])
    case Okay(from) =>
      if e.Live? then
        (Live(e.s.(peer := if e.s.peer.None? then Some(from) else e.s.peer, armed := true)), [])
      else (e, [])
    case Clse =>
      if e.Live? then Close(e.s, PeerClosed) else (e, [])
    case Wrte(from, data) =>
      if e.Live? then Enqueue(e.s, me, from, data, k, stop) else (e, [])
  }

  /** local_socket_event_func, FDE_READ, having read `data` and then EAGAIN or end of file. */
  function OnRead(e: End, me: nat, data: seq<byte>, eof: bool): (End, seq<Out>) {
    if !e.Live? || !e.s.armed || |data| > MAX_PAYLOAD then (e, [])
    else
      var send := data != [] && e.s.peer.Some?;
      var s1 := if send then e.s.(input := e.s.input + data, armed := false) else e.s;
      var outs := if send then [Out(e.s.peer.value, Wrte(me, data))] else [];
      if eof then var (e2, more) := Close(s1, LocalEof); (e2, outs + more)
      else (Live(s1), outs)
  }

  /** local_socket_event_func, FDE_WRITE, when the fd takes `k` bytes and then stops. */
  function OnWrite(e: End, me: nat, k: nat, stop: Stop): (End, seq<Out>) {
    if !(e.Live? || e.Lingering?) || e.s.backlog == [] then (e, [])
    else
      var n := Min(k, |Flat(e.s.backlog)|);
      var s1 := e.s.(output := e.s.output + Flat(e.s.backlog)[..n],
                     backlog := DropBytes(e.s.backlog, n));
      if s1.backlog == [] then
        if e.Lingering? then (Gone(s1, Drained), [])
        else if s1.peer.Some? then (Live(s1), [Out(s1.peer.value, Okay(me))])
        else (Live(s1), [])  // s->peer is null here: Stream.Inv shows this cannot happen
      else if stop.Blocked? then
        (if e.Live? then Live(s1) else Lingering(s1), [])
      else if e.Live? then Close(s1, Broken)
      else (Gone(s1, Broken), [])
  }

  /**
   * A read event that was already pending when the socket moved to the closing list
   * (fdevent_set does not drop it).  What is read is thrown away; end of file destroys
   * the socket with its backlog.
   */
  function OnStaleRead(e: End, eof: bool): (End, seq<Out>) {
    if e.Lingering? && eof then (Gone(e.s, Broken), []) else (e, [])
  }
}
