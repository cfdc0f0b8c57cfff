/**
 * An adbd endpoint in the source's own imperative form: the socket table, the id
 * counter and the packets handed to send_packet are fields, system calls are scripts
 * of return values.  Each method is proved to compute the step functions of modules
 * StreamSocket and Mux, about which the run theorems are stated.
 */
module Endpoint {
  import opened Common
  import opened StreamSocket
  import M = Mux

  /** One adb_write: bytes taken, EAGAIN, or zero/another error. */
  datatype WriteRet = Wrote(n: nat) | WouldBlock | WriteError

  /** One adb_read: bytes, EAGAIN, or end of file/another error. */
  datatype ReadRet = Got(bytes: seq<byte>) | NotYet | Ended

  /** How many of `len` bytes a script of writes takes, why it stops, and what is left of it. */
  function Accept(script: seq<WriteRet>, len: nat): (nat, Stop, seq<WriteRet>) {
    if len == 0 || script == [] then (0, Blocked, script)
    else match script[0]
      case Wrote(n) =>
        var m := Min(n + 1, len);  // a successful write takes at least one byte
        var (k, stop, rest) := Accept(script[1..], len - m);
        (m + k, stop, rest)
      case WouldBlock => (0, Blocked, script[1..])
      case WriteError => (0, Failed, script[1..])
  }

  /** The bytes that a script of reads yields for a buffer of size `room`, and whether the fd ended. */
  function Gather(script: seq<ReadRet>, room: nat): (seq<byte>, bool) {
    if room == 0 || script == [] then ([], false)
    else match script[0]
      case Got(bytes) =>
        var part := bytes[..Min(|bytes|, room)];
        if part == [] then ([], true)  // a read that returns 0
        else var (more, eof) := Gather(script[1..], room - |part|); (part + more, eof)
      case NotYet => ([], false)
      case Ended => ([], true)
  }

  // ---- what the scripts of system calls amount to ----

  /** The bytes the fd gives before it says EAGAIN or ends, however they are split. */
  function Supplied(script: seq<ReadRet>): seq<byte> {
    if script == [] || !script[0].Got? || script[0].bytes == [] then []
    else script[0].bytes + Supplied(script[1..])
  }

  /** Whether it ends then: an error, or a read that returns nothing. */
  function EndsThere(script: seq<ReadRet>): bool {
    if script == [] || script[0].NotYet? then false
    else if script[0].Ended? || script[0].bytes == [] then true
    else EndsThere(script[1..])
  }

  /** A read event gets all the fd gives, up to its buffer, and sees the end if there was room for more. */
  lemma {:induction false} GatherIsExact(script: seq<ReadRet>, room: nat)
    ensures Gather(script, room).0 == Supplied(script)[..Min(room, |Supplied(script)|)]
    ensures Gather(script, room).1 <==> |Supplied(script)| < room && EndsThere(script)
  {
    if room != 0 && script != [] && script[0].Got? && script[0].bytes != [] {
      var b, more := script[0].bytes, Supplied(script[1..]);
      if |b| < room {
        assert b[..|b|] == b;
        GatherIsExact(script[1..], room - |b|);
        assert (b + more)[..Min(room, |b + more|)] == b + more[..Min(room - |b|, |more|)];
      } else {
        assert Gather(script[1..], 0) == ([], false);
        assert b[..room] + [] == b[..room] == (b + more)[..room];
      }
    }
  }

  /** How many writes in a row work at the start of a script, and the bytes they can take. */
  function Working(script: seq<WriteRet>): (n: nat)
    ensures n <= |script| && (n < |script| ==> !script[n].Wrote?)
  {
    if script == [] || !script[0].Wrote? then 0 else 1 + Working(script[1..])
  }

  function Capacity(script: seq<WriteRet>): nat {
    if script == [] || !script[0].Wrote? then 0 else script[0].n + 1 + Capacity(script[1..])
  }

  predicate FailsThere(script: seq<WriteRet>) {
    Working(script) < |script| && script[Working(script)].WriteError?
  }

  /** One packet: everything is written that the fd has room for, and a failure counts only if something is left. */
  lemma {:induction false} AcceptIsExact(script: seq<WriteRet>, len: nat)
    ensures Accept(script, len).0 == Min(len, Capacity(script))
    ensures Accept(script, len).1.Failed? <==> Capacity(script) < len && FailsThere(script)
  {
    if len != 0 && script != [] && script[0].Wrote? {
      AcceptIsExact(script[1..], len - Min(script[0].n + 1, len));
      assert Working(script) == 1 + Working(script[1..]);
    }
  }

  /** What is left of a script after one packet went out whole. */
  lemma {:induction false} AcceptRest(script: seq<WriteRet>, len: nat)
    requires Accept(script, len).0 == len
    ensures var rest := Accept(script, len).2;
      && Working(script) <= len + Working(rest)
      && (FailsThere(rest) <==> FailsThere(script))
  {
    if len != 0 && script != [] && script[0].Wrote? {
      AcceptRest(script[1..], len - Min(script[0].n + 1, len));
      assert Working(script) == 1 + Working(script[1..]);
    }
  }

  /**
   * A whole queue: writing stops short only when the working writes are used up, each having
   * taken at least a byte, and it fails exactly when the next one does.
   */
  lemma {:induction false} AcceptAllIsExact(script: seq<WriteRet>, backlog: seq<seq<byte>>)
    ensures var (n, stop) := AcceptAll(script, backlog);
      && n <= |Flat(backlog)|
      && (n < |Flat(backlog)| ==> n >= Working(script) && (stop.Failed? <==> FailsThere(script)))
      && (n == |Flat(backlog)| ==> stop.Blocked?)
    decreases |backlog|
  {
    if backlog != [] {
      var (n, stop, rest) := Accept(script, |backlog[0]|);
      AcceptIsExact(script, |backlog[0]|);
      if n < |backlog[0]| {
        CapacityCounts(script);
      } else {
        AcceptRest(script, |backlog[0]|);
        AcceptAllIsExact(rest, backlog[1..]);
      }
    }
  }

  lemma {:induction false} CapacityCounts(script: seq<WriteRet>)
    ensures Working(script) <= Capacity(script)
  {
    if script != [] && script[0].Wrote? { CapacityCounts(script[1..]); }
  }

  /** The write loop of local_socket_enqueue and of the write event. */
  method WriteOut(data: seq<byte>, script: seq<WriteRet>)
    returns (n: nat, stop: Stop, rest: seq<WriteRet>)
    ensures (n, stop, rest) == Accept(script, |data|)
    ensures n <= |data|
  {
    n, stop, rest := 0, Blocked, script;
    while n < |data| && rest != []
      invariant n <= |data|
      invariant stop == Blocked
      invariant Accept(script, |data|)
        == (n + Accept(rest, |data| - n).0, Accept(rest, |data| - n).1, Accept(rest, |data| - n).2)
      decreases |rest|
    {
      var r := rest[0];
      rest := rest[1..];
      match r {
        case Wrote(m) => n := n + Min(m + 1, |data| - n);
        case WouldBlock => return;
        case WriteError => stop := Failed; return;
      }
    }
  }

  /** The read loop of the read event. */
  method ReadIn(script: seq<ReadRet>) returns (data: seq<byte>, eof: bool)
    ensures (data, eof) == Gather(script, MAX_PAYLOAD)
    ensures |data| <= MAX_PAYLOAD
  {
    data, eof := [], false;
    var i := 0;
    assert script[0..] == script;
    assert [] + Gather(script, MAX_PAYLOAD).0 == Gather(script, MAX_PAYLOAD).0;
    while |data| < MAX_PAYLOAD && i < |script|
      invariant 0 <= i <= |script| && |data| <= MAX_PAYLOAD
      invariant !eof
      invariant Gather(script, MAX_PAYLOAD)
        == (data + Gather(script[i..], MAX_PAYLOAD - |data|).0, Gather(script[i..], MAX_PAYLOAD - |data|).1)
    {
      assert script[i..][1..] == script[i + 1..];
      match script[i] {
        case Got(bytes) =>
          var part := bytes[..Min(|bytes|, MAX_PAYLOAD - |data|)];
          if part == [] { assert data + [] == data; eof := true; return; }
          assert data + part + Gather(script[i + 1..], MAX_PAYLOAD - |data| - |part|).0
              == data + (part + Gather(script[i + 1..], MAX_PAYLOAD - |data| - |part|).0);
          data := data + part;
        case NotYet => assert data + [] == data; return;
        case Ended => assert data + [] == data; eof := true; return;
      }
      i := i + 1;
    }
    assert data + [] == data;
  }

  /** The bytes of a whole backlog that a script of writes takes, and why it stops. */
  function AcceptAll(script: seq<WriteRet>, backlog: seq<seq<byte>>): (nat, Stop)
    decreases |backlog|
  {
    if backlog == [] then (0, Blocked)
    else
      var (n, stop, rest) := Accept(script, |backlog[0]|);
      if n < |backlog[0]| then (n, stop)
      else var (k, stop') := AcceptAll(rest, backlog[1..]); (n + k, stop')
  }

  /** The outer loop of the write event: write packet after packet until one does not go out whole. */
  method Flush(backlog: seq<seq<byte>>, script: seq<WriteRet>)
    returns (left: seq<seq<byte>>, written: seq<byte>, stop: Stop)
    ensures |written| <= |Flat(backlog)|
    ensures written == Flat(backlog)[..|written|]
    ensures left == DropBytes(backlog, |written|)
    ensures (|written|, stop) == AcceptAll(script, backlog)
  {
    left, written, stop := backlog, [], Blocked;
    var rest := script;
    while left != []
      invariant Flushed(backlog, written, left)
      invariant AcceptAll(script, backlog) == (|written| + AcceptAll(rest, left).0, AcceptAll(rest, left).1)
      decreases |left|
    {
      var n;
      n, stop, rest := WriteOut(left[0], rest);
      FlushPart(backlog, written, left, n);
      written := written + left[0][..n];
      if n < |left[0]| {
        left := [left[0][n..]] + left[1..];
        return;
      }
      left := left[1..];
    }
    stop := Blocked;
  }

  /** `left` is what remains of `backlog` after `written` went out (up to leading empty packets). */
  ghost predicate Flushed(backlog: seq<seq<byte>>, written: seq<byte>, left: seq<seq<byte>>) {
    && DropBytes(left, 0) == DropBytes(backlog, |written|)
    && Flat(backlog) == written + Flat(left)
  }

  lemma FlushPart(backlog: seq<seq<byte>>, written: seq<byte>, left: seq<seq<byte>>, n: nat)
    requires Flushed(backlog, written, left) && left != [] && n <= |left[0]|
    ensures var w := written + left[0][..n];
      && |w| <= |Flat(backlog)| && w == Flat(backlog)[..|w|]
      && (if n == |left[0]| then Flushed(backlog, w, left[1..])
          else DropBytes(backlog, |w|) == [left[0][n..]] + left[1..])
  {
    DropPart(backlog, |written|, left, n);
    WrittenGrows(Flat(backlog), written, left, n);
  }

  lemma DropPart(backlog: seq<seq<byte>>, k: nat, left: seq<seq<byte>>, n: nat)
    requires DropBytes(left, 0) == DropBytes(backlog, k) && left != [] && n <= |left[0]|
    ensures DropBytes(backlog, k + n)
      == if n == |left[0]| then DropBytes(left[1..], 0) else [left[0][n..]] + left[1..]
  {
    DropMore(backlog, k, n);
    DropMore(left, 0, n);
  }

  lemma WrittenGrows(all: seq<byte>, written: seq<byte>, left: seq<seq<byte>>, n: nat)
    requires left != [] && n <= |left[0]| && all == written + Flat(left)
    ensures var w := written + left[0][..n];
      && |w| <= |all| && w == all[..|w|]
      && (n == |left[0]| ==> all == w + Flat(left[1..]))
  {
    Regroup(written, left[0], Flat(left[1..]));
    if n == |left[0]| { assert left[0][..n] == left[0]; }
  }

  lemma {:induction false} DropMore(b: seq<seq<byte>>, k: nat, n: nat)
    ensures DropBytes(DropBytes(b, k), n) == DropBytes(b, k + n)
  {
    if b != [] {
      if |b[0]| <= k {
        DropMore(b[1..], k - |b[0]|, n);
      } else {
        assert ([b[0][k..]] + b[1..])[1..] == b[1..];
      }
    }
  }

  class Daemon {
    const isA: bool
    var nextId: nat
    var slots: map<nat, M.Slot>
    var idOf: map<M.Key, nat>
    var sent: seq<M.Packet>

    function Value(): M.Endpoint
      reads this
    {
      M.Endpoint(nextId, slots, idOf)
    }

    constructor (isA: bool)
      ensures this.isA == isA && Value() == M.Endpoint(1, map[], map[]) && sent == []
    {
      this.isA := isA;
      nextId, slots, idOf, sent := 1, map[], map[], [];
    }

    /** send_packet for a stream packet. */
    method Send(key: M.Key, to: nat, msg: Msg)
      modifies this`sent
      ensures sent == old(sent) + [M.Packet(key, to, msg)]
    {
      sent := sent + [M.Packet(key, to, msg)];
    }

    /** create_local_socket followed by connect_to_remote. */
    method Connect()
      modifies this
      ensures (Value(), sent) == (
        var (me, out, _) := M.Local(old(Value()), isA, M.Chan([], old(sent)), M.Chan([], []), M.Connect);
        (me, out.flight))
    {
      var id, key := nextId, M.Key(isA, nextId);
      nextId := nextId + 1;
      slots := slots[id := M.Slot(key, Live(FRESH))];
      idOf := idOf[key := id];
      Send(key, 0, Open(id));
    }

    /** local_socket_close on a listed socket; `s` is its current value. */
    method CloseSocket(id: nat, s: Sock, why: Cause)
      requires id in slots
      modifies this`slots, this`sent
      ensures var (e, outs) := Close(s, why);
        && slots == old(slots)[id := old(slots)[id].(end := e)]
        && sent == old(sent) + M.Post(old(slots)[id].key, outs)
    {
      var key := slots[id].key;
      if s.peer.Some? {
        Send(key, s.peer.value, Clse);
      }
      var cut := s.(peer := None, armed := false);
      slots := slots[id := M.Slot(key, if s.backlog == [] then Gone(cut, why) else Lingering(cut))];
    }

    /** local_socket_enqueue, with the OKAY of handle_packet when everything was written. */
    method EnqueueData(id: nat, from: nat, data: seq<byte>, script: seq<WriteRet>)
      requires id in slots && slots[id].end.Live?
      modifies this`slots, this`sent
      ensures var (k, stop, _) := Accept(script, |data|);
        var (e, outs) := Enqueue(old(slots)[id].end.s, id, from, data, k, stop);
        && slots == old(slots)[id := old(slots)[id].(end := e)]
        && sent == old(sent) + M.Post(old(slots)[id].key, outs)
    {
      var key, s := slots[id].key, slots[id].end.s;
      if s.backlog != [] {
        slots := slots[id := M.Slot(key, Live(s.(backlog := s.backlog + [data])))];
        return;
      }
      var n, stop, _ := WriteOut(data, script);
      var s1 := s.(output := s.output + data[..n]);
      if n == |data| {
        slots := slots[id := M.Slot(key, Live(s1))];
        Send(key, from, Okay(id));
      } else if stop.Blocked? {
        slots := slots[id := M.Slot(key, Live(s1.(backlog := [data[n..]])))];
      } else {
        CloseSocket(id, s1, Broken);
      }
    }

    /** handle_packet while the transport is online. */
    method HandlePacket(p: M.Packet, accept: bool, script: seq<WriteRet>)
      modifies this
      ensures var (k, stop, _) := Accept(script, if p.msg.Wrte? then |p.msg.data| else 0);
        var (me, ps) := M.Handle(old(Value()), isA, p, accept, k, stop);
        Value() == me && sent == old(sent) + ps
    {
      match p.msg {
        case Open(from) =>
          var key := M.Key(!isA, from);
          if accept {
            var id := nextId;
            nextId := nextId + 1;
            slots := slots[id := M.Slot(key, Live(FRESH.(peer := Some(from), armed := true)))];
            idOf := idOf[key := id];
            Send(key, from, Okay(id));
          } else {
            Send(key, from, Clse);
          }
        case Okay(from) =>
          if p.to in slots && slots[p.to].end.Live? {
            var s := slots[p.to].end.s;
            if s.peer.None? { s := s.(peer := Some(from)); }
            slots := slots[p.to := M.Slot(slots[p.to].key, Live(s.(armed := true)))];
          }
        case Clse =>
          if p.to in slots && slots[p.to].end.Live? {
            CloseSocket(p.to, slots[p.to].end.s, PeerClosed);
          }
        case Wrte(from, data) =>
          if p.to in slots && slots[p.to].end.Live? {
            EnqueueData(p.to, from, data, script);
          }
      }
      NothingPosted();
      SlotsKept(old(slots), p.to);
    }

    /** The FDE_READ half of local_socket_event_func on an armed socket. */
    method ReadEvent(id: nat, script: seq<ReadRet>)
      requires id in slots && slots[id].end.Live? && slots[id].end.s.armed
      modifies this`slots, this`sent
      ensures var (data, eof) := Gather(script, MAX_PAYLOAD);
        var (e, outs) := OnRead(old(slots)[id].end, id, data, eof);
        && slots == old(slots)[id := old(slots)[id].(end := e)]
        && sent == old(sent) + M.Post(old(slots)[id].key, outs)
    {
      var key, s := slots[id].key, slots[id].end.s;
      var data, eof := ReadIn(script);
      if data != [] && s.peer.Some? {
        Send(key, s.peer.value, Wrte(id, data));
        s := s.(input := s.input + data, armed := false);
      }
      if eof {
        CloseSocket(id, s, LocalEof);
      } else {
        slots := slots[id := M.Slot(key, Live(s))];
      }
      NothingPosted();
    }

    /** The FDE_READ half on a closing socket, whose READ was pending when it was disarmed. */
    method StaleReadEvent(id: nat, script: seq<ReadRet>)
      requires id in slots && slots[id].end.Lingering?
      modifies this`slots
      ensures var eof := Gather(script, MAX_PAYLOAD).1;
        slots == old(slots)[id := old(slots)[id].(end := OnStaleRead(old(slots)[id].end, eof).0)]
    {
      SlotsKept(slots, id);
      var _, eof := ReadIn(script);
      if eof {
        slots := slots[id := M.Slot(slots[id].key, Gone(slots[id].end.s, Broken))];
      }
    }

    /** The FDE_WRITE half; `taken` reports how many bytes the fd took, `stop` why it stopped. */
    method WriteEvent(id: nat, script: seq<WriteRet>) returns (taken: nat, stop: Stop)
      requires id in slots && (slots[id].end.Live? || slots[id].end.Lingering?)
      requires slots[id].end.s.backlog != []
      requires slots[id].end.Live? ==> slots[id].end.s.peer.Some?
      modifies this`slots, this`sent
      ensures (taken, stop) == AcceptAll(script, old(slots)[id].end.s.backlog)
      ensures var (e, outs) := OnWrite(old(slots)[id].end, id, taken, stop);
        && slots == old(slots)[id := old(slots)[id].(end := e)]
        && sent == old(sent) + M.Post(old(slots)[id].key, outs)
    {
      var key, end := slots[id].key, slots[id].end;
      var left, written;
      left, written, stop := Flush(end.s.backlog, script);
      taken := |written|;
      var s := end.s.(output := end.s.output + written, backlog := left);
      if left == [] {
        if end.Lingering? {
          slots := slots[id := M.Slot(key, Gone(s, Drained))];
        } else {
          slots := slots[id := M.Slot(key, Live(s))];
          Send(key, s.peer.value, Okay(id));
        }
      } else if stop.Blocked? {
        slots := slots[id := M.Slot(key, if end.Live? then Live(s) else Lingering(s))];
      } else if end.Live? {
        CloseSocket(id, s, Broken);
      } else {
        slots := slots[id := M.Slot(key, Gone(s, Broken))];
      }
      NothingPosted();
    }
  }

  lemma NothingPosted()
    ensures forall q: seq<M.Packet>, key :: q + M.Post(key, []) == q
  {
  }

  lemma SlotsKept(slots: map<nat, M.Slot>, id: nat)
    ensures id in slots ==> slots[id := slots[id].(end := slots[id].end)] == slots
  {
  }
}
