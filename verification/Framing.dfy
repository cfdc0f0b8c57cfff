/**
 * ADB packets on a byte stream: send_packet, check_header, check_data, readx and writex
 * (adbd/src/transport.c), remote_read and remote_write (adbd/src/transport_local.c and
 * transport_usb.c), on a host of either byte order.
 */
module Framing {
  import opened Common

  const ALL_ONES: int := 0xffff_ffff

  type u32 = x: int | 0 <= x < 0x1_0000_0000

  datatype Header = Header(command: u32, arg0: u32, arg1: u32, length: u32, check: u32, magic: u32)

  datatype Message = Message(h: Header, data: seq<byte>)

  // ---- words in memory ----

  /** The n low bytes of a number, lowest first. */
  function Digits(v: nat, n: nat): (b: seq<byte>)
    ensures |b| == n
  {
    if n == 0 then [] else [v % 256] + Digits(v / 256, n - 1)
  }

  function Pow(n: nat): nat { if n == 0 then 1 else 256 * Pow(n - 1) }

  function Number(b: seq<byte>): (v: nat)
    ensures v < Pow(|b|)
  {
    if b == [] then 0 else b[0] + 256 * Number(b[1..])
  }

  function Le(v: u32): (b: seq<byte>)
    ensures |b| == 4
  {
    Digits(v, 4)
  }

  function FromLe(b: seq<byte>): (v: u32)
    requires |b| == 4
  {
    assert Pow(4) == 0x1_0000_0000;
    Number(b)
  }

  function Swapped(b: seq<byte>): (r: seq<byte>)
    requires |b| == 4
    ensures |r| == 4
  {
    [b[3], b[2], b[1], b[0]]
  }

  /** How a host stores a word, and how it reads one. */
  function Store(big: bool, v: u32): (b: seq<byte>)
    ensures |b| == 4
  {
    if big then Swapped(Le(v)) else Le(v)
  }

  function Load(big: bool, b: seq<byte>): u32
    requires |b| == 4
  {
    FromLe(if big then Swapped(b) else b)
  }

  /** Byte k of a word, as a shift and a mask select it. */
  function ByteOf(v: nat, k: nat): byte {
    if k == 0 then v % 256 else ByteOf(v / 256, k - 1)
  }

  /** The H4 macro: the four bytes of a word in reverse order. */
  function H4(v: u32): u32 {
    FromLe([ByteOf(v, 3), ByteOf(v, 2), ByteOf(v, 1), ByteOf(v, 0)])
  }

  function Fix(big: bool, v: u32): u32 { if big then H4(v) else v }

  lemma SplitByte(lo: byte, hi: nat)
    ensures (lo + 256 * hi) % 256 == lo && (lo + 256 * hi) / 256 == hi
  {
  }

  lemma {:induction false} NumberOfDigits(v: nat, n: nat)
    requires v < Pow(n)
    ensures Number(Digits(v, n)) == v
  {
    if n > 0 {
      NumberOfDigits(v / 256, n - 1);
      assert Digits(v, n)[1..] == Digits(v / 256, n - 1);
    }
  }

  lemma {:induction false} DigitsOfNumber(b: seq<byte>)
    ensures Digits(Number(b), |b|) == b
  {
    if b != [] {
      SplitByte(b[0], Number(b[1..]));
      DigitsOfNumber(b[1..]);
    }
  }

  lemma {:induction false} DigitAt(v: nat, n: nat, k: nat)
    requires k < n
    ensures Digits(v, n)[k] == ByteOf(v, k)
  {
    if k > 0 { DigitAt(v / 256, n - 1, k - 1); }
  }

  lemma LeRoundTrip(v: u32)
    ensures FromLe(Le(v)) == v
  {
    assert Pow(4) == 0x1_0000_0000;
    NumberOfDigits(v, 4);
  }

  /** The four bytes of a word, lowest first, by their weights. */
  lemma LeWeights(a: byte, b: byte, c: byte, d: byte)
    ensures FromLe([a, b, c, d]) == a + 0x100 * b + 0x1_0000 * c + 0x100_0000 * d
  {
    var w := [a, b, c, d];
    assert w[1..] == [b, c, d] && w[1..][1..] == [c, d] && w[1..][1..][1..] == [d];
    assert Number([d]) == d;
    assert Number([c, d]) == c + 256 * d;
    assert Number([b, c, d]) == b + 256 * (c + 256 * d);
  }

  lemma FromLeRoundTrip(b: seq<byte>)
    requires |b| == 4
    ensures Le(FromLe(b)) == b
  {
    DigitsOfNumber(b);
  }

  lemma H4Swaps(v: u32)
    ensures Le(H4(v)) == Swapped(Le(v))
  {
    DigitAt(v, 4, 0);
    DigitAt(v, 4, 1);
    DigitAt(v, 4, 2);
    DigitAt(v, 4, 3);
    FromLeRoundTrip([ByteOf(v, 3), ByteOf(v, 2), ByteOf(v, 1), ByteOf(v, 0)]);
  }

  /** After fix_endians a word is stored little-endian on either kind of host... */
  lemma StoreFixed(big: bool, v: u32)
    ensures Store(big, Fix(big, v)) == Le(v)
  {
    if big {
      H4Swaps(v);
      assert Swapped(Swapped(Le(v))) == Le(v);
    }
  }

  /** ...and a little-endian word is read back whatever the host. */
  lemma LoadFixed(big: bool, b: seq<byte>)
    requires |b| == 4
    ensures Fix(big, Load(big, b)) == FromLe(b)
  {
    if big {
      H4Swaps(FromLe(Swapped(b)));
      FromLeRoundTrip(Swapped(b));
      assert Swapped(Swapped(b)) == b;
      LeRoundTrip(H4(FromLe(Swapped(b))));
    }
  }

  // ---- checksum ----

  function Sum(data: seq<byte>): nat {
    if data == [] then 0 else data[0] + Sum(data[1..])
  }

  lemma {:induction false} SumAppend(data: seq<byte>, b: byte)
    ensures Sum(data + [b]) == Sum(data) + b
  {
    if data == [] {
      assert data + [b] == [b];
      assert [b][1..] == [];
    } else {
      assert (data + [b])[1..] == data[1..] + [b];
      SumAppend(data[1..], b);
    }
  }

  /** The checksum is the plain sum of the bytes: nothing for nothing, each byte for itself. */
  lemma {:induction false} SumOfParts(a: seq<byte>, b: seq<byte>)
    ensures Sum([]) == 0 && Sum(a + b) == Sum(a) + Sum(b)
    ensures forall x: byte :: Sum([x]) == x
  {
    if a == [] {
      assert a + b == b;
    } else {
      assert (a + b)[1..] == a[1..] + b;
      SumOfParts(a[1..], b);
    }
    forall x: byte ensures Sum([x]) == x { assert [x][1..] == []; }
  }

  lemma {:induction false} SumBound(data: seq<byte>)
    ensures Sum(data) <= 255 * |data|
  {
    if data != [] { SumBound(data[1..]); }
  }

  /** The 32-bit running sum of send_packet and check_data over the first n bytes. */
  method Checksum(data: seq<byte>) returns (sum: u32)
    ensures sum == Sum(data) % 0x1_0000_0000
    ensures |data| <= MAX_PAYLOAD ==> sum == Sum(data)
  {
    sum := 0;
    var i := 0;
    while i < |data|
      invariant 0 <= i <= |data| && sum == Sum(data[..i]) % 0x1_0000_0000
    {
      assert data[..i + 1] == data[..i] + [data[i]];
      SumAppend(data[..i], data[i]);
      sum := (sum + data[i]) % 0x1_0000_0000;
      i := i + 1;
    }
    assert data[..i] == data;
    SumBound(data);
  }

  // ---- packets ----

  /** What send_packet makes of a packet whose command, arguments and payload are filled in. */
  function Finalised(command: u32, arg0: u32, arg1: u32, data: seq<byte>): Message
    requires |data| <= MAX_PAYLOAD
  {
    SumBound(data);
    Message(Header(command, arg0, arg1, |data|, Sum(data), ALL_ONES - command), data)
  }

  /** What check_header and check_data accept (with the payload read to its length). */
  predicate WellFormed(m: Message) {
    && m.h.magic == ALL_ONES - m.h.command
    && m.h.length == |m.data| <= MAX_PAYLOAD
    && m.h.check == Sum(m.data)
  }

  method SendPacket(command: u32, arg0: u32, arg1: u32, data: seq<byte>) returns (m: Message)
    requires |data| <= MAX_PAYLOAD
    ensures m == Finalised(command, arg0, arg1, data) && WellFormed(m)
    ensures m.h.command == command && m.h.arg0 == arg0 && m.h.arg1 == arg1 && m.data == data
    ensures m.h.length == |data| && m.h.check == Sum(data) && m.h.magic + command == 0xffff_ffff
  {
    var sum := Checksum(data);
    m := Message(Header(command, arg0, arg1, |data|, sum, ALL_ONES - command), data);
  }

  /** The six words of a header as a host stores them after fix_endians. */
  function HeaderBytes(big: bool, h: Header): (b: seq<byte>)
    ensures |b| == 24
  {
    Store(big, Fix(big, h.command)) + Store(big, Fix(big, h.arg0)) + Store(big, Fix(big, h.arg1))
    + Store(big, Fix(big, h.length)) + Store(big, Fix(big, h.check)) + Store(big, Fix(big, h.magic))
  }

  function HeaderOf(big: bool, b: seq<byte>): Header
    requires |b| == 24
  {
    Header(Fix(big, Load(big, b[0..4])), Fix(big, Load(big, b[4..8])), Fix(big, Load(big, b[8..12])),
           Fix(big, Load(big, b[12..16])), Fix(big, Load(big, b[16..20])), Fix(big, Load(big, b[20..24])))
  }

  function WireHeader(h: Header): (b: seq<byte>)
    ensures |b| == 24
  {
    Le(h.command) + Le(h.arg0) + Le(h.arg1) + Le(h.length) + Le(h.check) + Le(h.magic)
  }

  /** The bytes of a packet on the wire, which do not depend on the host. */
  function Wire(m: Message): seq<byte> { WireHeader(m.h) + m.data }

  lemma HeaderBytesAreWire(big: bool, h: Header)
    ensures HeaderBytes(big, h) == WireHeader(h)
  {
    StoreFixed(big, h.command);
    StoreFixed(big, h.arg0);
    StoreFixed(big, h.arg1);
    StoreFixed(big, h.length);
    StoreFixed(big, h.check);
    StoreFixed(big, h.magic);
  }

  lemma WireSlices(h: Header)
    ensures var b := WireHeader(h);
      && b[0..4] == Le(h.command) && b[4..8] == Le(h.arg0) && b[8..12] == Le(h.arg1)
      && b[12..16] == Le(h.length) && b[16..20] == Le(h.check) && b[20..24] == Le(h.magic)
  {
  }

  lemma WordRead(big: bool, v: u32)
    ensures Fix(big, Load(big, Le(v))) == v
  {
    LoadFixed(big, Le(v));
    LeRoundTrip(v);
  }

  lemma HeaderOfWire(big: bool, h: Header)
    ensures HeaderOf(big, WireHeader(h)) == h
  {
    WireSlices(h);
    WordRead(big, h.command);
    WordRead(big, h.arg0);
    WordRead(big, h.arg1);
    WordRead(big, h.length);
    WordRead(big, h.check);
    WordRead(big, h.magic);
  }

  lemma WireOfHeader(big: bool, b: seq<byte>)
    requires |b| == 24
    ensures WireHeader(HeaderOf(big, b)) == b
  {
    LoadFixed(big, b[0..4]);
    LoadFixed(big, b[4..8]);
    LoadFixed(big, b[8..12]);
    LoadFixed(big, b[12..16]);
    LoadFixed(big, b[16..20]);
    LoadFixed(big, b[20..24]);
    FromLeRoundTrip(b[0..4]);
    FromLeRoundTrip(b[4..8]);
    FromLeRoundTrip(b[8..12]);
    FromLeRoundTrip(b[12..16]);
    FromLeRoundTrip(b[16..20]);
    FromLeRoundTrip(b[20..24]);
    assert b == b[0..4] + b[4..8] + b[8..12] + b[12..16] + b[16..20] + b[20..24];
  }

  // ---- reading from a byte stream ----

  /** One adb_read or adb_write moves at least one byte when it can. */
  function Chunk(chunks: seq<nat>, want: nat): (n: nat)
    requires want > 0
    ensures 1 <= n <= want
  {
    if chunks == [] then want else Min(chunks[0] + 1, want)
  }

  /** readx: `stream` is what the peer will ever send, `chunks` how it arrives. */
  method Readx(stream: seq<byte>, chunks: seq<nat>, len: nat)
    returns (ok: bool, data: seq<byte>, rest: seq<byte>, chunks': seq<nat>)
    ensures ok <==> len <= |stream|
    ensures ok ==> data == stream[..len] && rest == stream[len..]
    ensures !ok ==> data == stream && rest == []
  {
    ok, data, rest, chunks' := true, [], stream, chunks;
    while |data| < len
      invariant |data| <= len && stream == data + rest
      decreases len - |data|
    {
      if rest == [] { return false, data, rest, chunks'; }
      var r := Chunk(chunks', Min(len - |data|, |rest|));
      chunks' := if chunks' == [] then [] else chunks'[1..];
      data, rest := data + rest[..r], rest[r..];
    }
    assert data == stream[..len];
  }

  /** writex, with the amounts the fd takes; `failAt` is the byte count at which it breaks, if any. */
  method Writex(data: seq<byte>, chunks: seq<nat>, failAt: Option<nat>)
    returns (ok: bool, out: seq<byte>)
    ensures out <= data
    ensures ok ==> out == data
    ensures !ok ==> failAt.Some? && failAt.value <= |out| < |data|
    ensures failAt.Some? && failAt.value == 0 && data != [] ==> !ok
  {
    ok, out := true, [];
    var left := chunks;
    while |out| < |data|
      invariant out <= data && (failAt == Some(0) ==> out == [])
      decreases |data| - |out|
    {
      if failAt.Some? && |out| >= failAt.value { return false, out; }
      var r := Chunk(left, |data| - |out|);
      left := if left == [] then [] else left[1..];
      out := out + data[|out|..|out| + r];
    }
  }

  /** remote_read as a function of the stream: a packet and the rest of the stream, or failure. */
  function ReadPacket(big: bool, stream: seq<byte>): Option<(Message, seq<byte>)> {
    if |stream| < 24 then None
    else
      var h, tail := HeaderOf(big, stream[..24]), stream[24..];
      if h.magic != ALL_ONES - h.command || h.length > MAX_PAYLOAD || |tail| < h.length then None
      else
        var m := Message(h, tail[..h.length]);
        if Sum(m.data) != h.check then None else Some((m, tail[h.length..]))
  }

  method RemoteRead(big: bool, stream: seq<byte>, chunks: seq<nat>) returns (r: Option<(Message, seq<byte>)>)
    ensures r == ReadPacket(big, stream)
  {
    var ok, bytes, rest, left := Readx(stream, chunks, 24);
    if !ok { return None; }
    var h := HeaderOf(big, bytes);
    if h.magic != ALL_ONES - h.command { return None; }
    if h.length > MAX_PAYLOAD { return None; }
    var data, tail;
    ok, data, tail, left := Readx(rest, left, h.length);
    if !ok { return None; }
    var sum := Checksum(data);
    if sum != h.check { return None; }
    r := Some((Message(h, data), tail));
  }

  /** remote_write: the whole wire form, or, when the fd fails, a proper prefix and failure. */
  method RemoteWrite(big: bool, m: Message, chunks: seq<nat>, failAt: Option<nat>) returns (ok: bool, out: seq<byte>)
    requires m.h.length == |m.data|
    ensures ok ==> out == Wire(m)
    ensures !ok ==> out < Wire(m) && failAt.Some? && failAt.value <= |out|
    ensures failAt.Some? && failAt.value == 0 ==> !ok
    ensures failAt.None? ==> ok
  {
    HeaderBytesAreWire(big, m.h);
    ok, out := Writex(HeaderBytes(big, m.h) + m.data, chunks, failAt);
  }

  lemma SplitAt<T>(a: seq<T>, b: seq<T>, s: seq<T>)
    requires s == a + b
    ensures s[..|a|] == a && s[|a|..] == b
  {
  }

  lemma ReadsWire(big: bool, m: Message, rest: seq<byte>, stream: seq<byte>)
    requires WellFormed(m) && stream == Wire(m) + rest
    ensures ReadPacket(big, stream) == Some((m, rest))
  {
    Regroup(WireHeader(m.h), m.data, rest);
    SplitAt(WireHeader(m.h), m.data + rest, stream);
    SplitAt(m.data, rest, m.data + rest);
    HeaderOfWire(big, m.h);
  }

  lemma Rejoined(big: bool, stream: seq<byte>, m: Message, rest: seq<byte>)
    requires |stream| >= 24 && m.h == HeaderOf(big, stream[..24]) && stream[24..] == m.data + rest
    ensures stream == Wire(m) + rest
  {
    WireOfHeader(big, stream[..24]);
    Regroup(stream[..24], m.data, rest);
  }

  lemma ReadsOnlyWire(big: bool, m: Message, rest: seq<byte>, stream: seq<byte>)
    requires ReadPacket(big, stream) == Some((m, rest))
    ensures WellFormed(m) && stream == Wire(m) + rest
  {
    var head, tail := stream[..24], stream[24..];
    assert m.h == HeaderOf(big, head) && tail == m.data + rest;
    Rejoined(big, stream, m, rest);
  }

  /** Parsing is exact: a stream yields m and a rest iff it is the wire form of a well-formed m, then the rest. */
  lemma FramingExact(big: bool, stream: seq<byte>, m: Message, rest: seq<byte>)
    ensures ReadPacket(big, stream) == Some((m, rest)) <==> WellFormed(m) && stream == Wire(m) + rest
  {
    if WellFormed(m) && stream == Wire(m) + rest { ReadsWire(big, m, rest, stream); }
    if ReadPacket(big, stream) == Some((m, rest)) { ReadsOnlyWire(big, m, rest, stream); }
  }

  function WireAll(ms: seq<Message>): seq<byte> {
    if ms == [] then [] else Wire(ms[0]) + WireAll(ms[1..])
  }

  /** Packets read one after the other until one fails. */
  function ReadAll(big: bool, stream: seq<byte>): seq<Message>
    decreases |stream|
  {
    var r := ReadPacket(big, stream);
    if r.None? then []
    else
      var (m, rest) := r.value;
      if |rest| >= |stream| then [] else [m] + ReadAll(big, rest)
  }

  /** Any sequence of finalised packets written by one host is read back identically by any other. */
  lemma {:induction false} FramingRoundTrip(big: bool, ms: seq<Message>)
    requires forall i :: 0 <= i < |ms| ==> WellFormed(ms[i])
    ensures ReadAll(big, WireAll(ms)) == ms
  {
    if ms != [] {
      FramingExact(big, WireAll(ms), ms[0], WireAll(ms[1..]));
      FramingRoundTrip(big, ms[1..]);
      assert [ms[0]] + ms[1..] == ms;
    }
  }

  // ---- USB: one transfer for the header, one for a nonempty payload ----

  function UsbWrite(big: bool, m: Message): seq<seq<byte>> {
    [HeaderBytes(big, m.h)] + (if m.h.length == 0 then [] else [m.data])
  }

  /** usb_read asks for exactly one transfer of the given size. */
  function UsbRead(big: bool, transfers: seq<seq<byte>>): Option<(Message, seq<seq<byte>>)> {
    if transfers == [] || |transfers[0]| != 24 then None
    else
      var h, tail := HeaderOf(big, transfers[0]), transfers[1..];
      if h.magic != ALL_ONES - h.command || h.length > MAX_PAYLOAD then None
      else if h.length == 0 then (if h.check != 0 then None else Some((Message(h, []), tail)))
      else if tail == [] || |tail[0]| != h.length || Sum(tail[0]) != h.check then None
      else Some((Message(h, tail[0]), tail[1..]))
  }

  lemma UsbReads(big: bool, head: seq<byte>, m: Message, rest: seq<seq<byte>>)
    requires WellFormed(m) && |head| == 24 && HeaderOf(big, head) == m.h
    ensures UsbRead(big, [head] + (if m.h.length == 0 then [] else [m.data]) + rest) == Some((m, rest))
  {
    var t := [head] + (if m.h.length == 0 then [] else [m.data]) + rest;
    assert t[0] == head;
    if m.h.length == 0 {
      assert m.data == [] && t[1..] == rest;
    } else {
      assert t[1..] == [m.data] + rest;
    }
  }

  /** A header transfer in wire order, then the payload if there is one. */
  lemma UsbTransfers(big: bool, m: Message)
    requires WellFormed(m)
    ensures UsbWrite(big, m) == [WireHeader(m.h)] + (if m.data == [] then [] else [m.data])
  {
    HeaderBytesAreWire(big, m.h);
  }

  /** Writer and reader may have different byte orders. */
  lemma UsbRoundTrip(bigW: bool, bigR: bool, m: Message, rest: seq<seq<byte>>)
    requires WellFormed(m)
    ensures UsbRead(bigR, UsbWrite(bigW, m) + rest) == Some((m, rest))
  {
    HeaderBytesAreWire(bigW, m.h);
    HeaderOfWire(bigR, m.h);
    UsbReads(bigR, HeaderBytes(bigW, m.h), m, rest);
  }

  function UsbWriteAll(big: bool, ms: seq<Message>): seq<seq<byte>> {
    if ms == [] then [] else UsbWrite(big, ms[0]) + UsbWriteAll(big, ms[1..])
  }

  /** Packets read one after the other until one fails. */
  function UsbReadAll(big: bool, transfers: seq<seq<byte>>): seq<Message>
    decreases |transfers|
  {
    var r := UsbRead(big, transfers);
    if r.None? then [] else [r.value.0] + UsbReadAll(big, r.value.1)
  }

  /** Any sequence of well-formed packets written by one host is read back identically by any other. */
  lemma {:induction false} UsbRoundTripAll(bigW: bool, bigR: bool, ms: seq<Message>)
    requires forall i :: 0 <= i < |ms| ==> WellFormed(ms[i])
    ensures UsbReadAll(bigR, UsbWriteAll(bigW, ms)) == ms
  {
    if ms != [] {
      UsbRoundTrip(bigW, bigR, ms[0], UsbWriteAll(bigW, ms[1..]));
      UsbRoundTripAll(bigW, bigR, ms[1..]);
      assert [ms[0]] + ms[1..] == ms;
    }
  }
}
