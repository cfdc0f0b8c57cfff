/**
 * The base64 codec of adbd/src/base64.c (section 5.2 of RFC 1521, section 4 of RFC 4648),
 * with its byte arithmetic.  Encode and Decode are the reference forms; Ntop and Pton are
 * the in-place loops of the source, proved against them.
 */
module Base64 {
  import opened Common

  const PAD: bv8 := 61  // '='

  /** The character for a six-bit value: A-Z, a-z, 0-9, +, /. */
  function Char(v: bv8): (c: bv8)
    requires v < 64
  {
    if v < 26 then v + 65
    else if v < 52 then v + 71
    else if v < 62 then v - 4
    else if v == 62 then 43
    else 47
  }

  /** strchr in the alphabet: the value of a character, if it has one. */
  function Value(c: bv8): (v: Option<bv8>)
    ensures v.Some? ==> v.value < 64 && Char(v.value) == c
  {
    if 65 <= c <= 90 then Some(c - 65)
    else if 97 <= c <= 122 then Some(c - 71)
    else if 48 <= c <= 57 then Some(c + 4)
    else if c == 43 then Some(62)
    else if c == 47 then Some(63)
    else None
  }

  lemma ValueOfChar(v: bv8)
    requires v < 64
    ensures Value(Char(v)) == Some(v) && Char(v) != PAD && Char(v) != 0 && !IsSpace(Char(v))
  {
  }

  /** isspace in the C locale. */
  predicate IsSpace(c: bv8) { c == 32 || 9 <= c <= 13 }

  function Strip(text: seq<bv8>): seq<bv8> {
    if text == [] then [] else (if IsSpace(text[0]) then [] else [text[0]]) + Strip(text[1..])
  }

  // The six-bit groups of up to three bytes, and back.
  function V0(a: bv8): (v: bv8) ensures v < 64 { a >> 2 }
  function V1(a: bv8, b: bv8): (v: bv8) ensures v < 64 { ((a & 0x03) << 4) + (b >> 4) }
  function V2(b: bv8, c: bv8): (v: bv8) ensures v < 64 { ((b & 0x0f) << 2) + (c >> 6) }
  function V3(c: bv8): (v: bv8) ensures v < 64 { c & 0x3f }

  function B0(v0: bv8, v1: bv8): bv8 { (v0 << 2) | (v1 >> 4) }
  function B1(v1: bv8, v2: bv8): bv8 { ((v1 & 0x0f) << 4) | (v2 >> 2) }
  function B2(v2: bv8, v3: bv8): bv8 { ((v2 & 0x03) << 6) | v3 }

  // ---- the alphabet of section 4 of RFC 4648 ----

  function Codes(s: string): seq<int> { seq(|s|, i requires 0 <= i < |s| => s[i] as int) }

  /** The values 0 to 25 are A to Z, */
  lemma CapitalLetters()
    ensures Codes("ABCDEFGHIJKLMNOPQRSTUVWXYZ") ==
      [65, 66, 67, 68, 69, 70, 71, 72, 73, 74, 75, 76, 77, 78, 79, 80, 81, 82, 83, 84, 85, 86, 87, 88, 89, 90]
    ensures
      [Char(0), Char(1), Char(2), Char(3), Char(4), Char(5), Char(6), Char(7), Char(8), Char(9), Char(10),
       Char(11), Char(12), Char(13), Char(14), Char(15), Char(16), Char(17), Char(18), Char(19), Char(20),
       Char(21), Char(22), Char(23), Char(24), Char(25)] ==
      [65, 66, 67, 68, 69, 70, 71, 72, 73, 74, 75, 76, 77, 78, 79, 80, 81, 82, 83, 84, 85, 86, 87, 88, 89, 90]
  {
  }

  /** 26 to 51 are a to z, */
  lemma SmallLetters()
    ensures Codes("abcdefghijklmnopqrstuvwxyz") ==
      [97, 98, 99, 100, 101, 102, 103, 104, 105, 106, 107, 108, 109, 110, 111, 112, 113, 114, 115, 116, 117,
       118, 119, 120, 121, 122]
    ensures
      [Char(26), Char(27), Char(28), Char(29), Char(30), Char(31), Char(32), Char(33), Char(34), Char(35),
       Char(36), Char(37), Char(38), Char(39), Char(40), Char(41), Char(42), Char(43), Char(44), Char(45),
       Char(46), Char(47), Char(48), Char(49), Char(50), Char(51)] ==
      [97, 98, 99, 100, 101, 102, 103, 104, 105, 106, 107, 108, 109, 110, 111, 112, 113, 114, 115, 116, 117,
       118, 119, 120, 121, 122]
  {
  }

  /** 52 to 61 are 0 to 9, 62 is + and 63 is /. */
  lemma DigitsAndSigns()
    ensures Codes("0123456789+/") ==
      [48, 49, 50, 51, 52, 53, 54, 55, 56, 57, 43, 47]
    ensures
      [Char(52), Char(53), Char(54), Char(55), Char(56), Char(57), Char(58), Char(59), Char(60), Char(61),
       Char(62), Char(63)] ==
      [48, 49, 50, 51, 52, 53, 54, 55, 56, 57, 43, 47]
  {
  }

  /** The pad is '=', and white space is blank, tab, newline, vertical tab, form feed and return. */
  lemma PadAndSpaces(c: bv8)
    ensures Codes("=") == [61] && PAD == 61 && Codes(" \t\n\r") == [32, 9, 10, 13]
    ensures IsSpace(c) <==> c == 32 || c == 9 || c == 10 || c == 11 || c == 12 || c == 13
  {
  }

  function Wide(x: bv8): bv32 { x as bv32 }

  /** Three bytes and their four groups are the same 24-bit number, in base 256 and in base 64. */
  lemma SameNumber(a: bv8, b: bv8, c: bv8)
    ensures (Wide(a) << 16) | (Wide(b) << 8) | Wide(c)
      == (Wide(V0(a)) << 18) | (Wide(V1(a, b)) << 12) | (Wide(V2(b, c)) << 6) | Wide(V3(c))
  {
  }

  function Quad(a: bv8, b: bv8, c: bv8): seq<bv8> {
    [Char(V0(a)), Char(V1(a, b)), Char(V2(b, c)), Char(V3(c))]
  }

  /** The encoding, with '=' padding in the last quantum. */
  function Encode(x: seq<bv8>): seq<bv8> {
    if x == [] then []
    else if |x| == 1 then [Char(V0(x[0])), Char(V1(x[0], 0)), PAD, PAD]
    else if |x| == 2 then [Char(V0(x[0])), Char(V1(x[0], x[1])), Char(V2(x[1], 0)), PAD]
    else Quad(x[0], x[1], x[2]) + Encode(x[3..])
  }

  function Prepend(x: seq<bv8>, r: Option<seq<bv8>>): Option<seq<bv8>> {
    if r.None? then None else Some(x + r.value)
  }

  /** Decoding quantum by quantum, rejecting everything Encode does not produce. */
  function Decode(c: seq<bv8>): Option<seq<bv8>> {
    if c == [] then Some([])
    else if |c| < 4 || Value(c[0]).None? || Value(c[1]).None? then None
    else
      var v0, v1 := Value(c[0]).value, Value(c[1]).value;
      if c[2] == PAD then
        if |c| == 4 && c[3] == PAD && (v1 & 0x0f) << 4 == 0 then Some([B0(v0, v1)]) else None
      else if Value(c[2]).None? then None
      else
        var v2 := Value(c[2]).value;
        if c[3] == PAD then
          if |c| == 4 && (v2 & 0x03) << 6 == 0 then Some([B0(v0, v1), B1(v1, v2)]) else None
        else if Value(c[3]).None? then None
        else Prepend([B0(v0, v1), B1(v1, v2), B2(v2, Value(c[3]).value)], Decode(c[4..]))
  }

  lemma BytesToGroups(a: bv8, b: bv8, c: bv8)
    ensures B0(V0(a), V1(a, b)) == a && B1(V1(a, b), V2(b, c)) == b && B2(V2(b, c), V3(c)) == c
    ensures (V1(a, 0) & 0x0f) << 4 == 0 && (V2(b, 0) & 0x03) << 6 == 0
  {
  }

  lemma GroupsToBytes(v0: bv8, v1: bv8, v2: bv8, v3: bv8)
    requires v0 < 64 && v1 < 64 && v2 < 64 && v3 < 64
    ensures V0(B0(v0, v1)) == v0 && V1(B0(v0, v1), B1(v1, v2)) == v1
    ensures V2(B1(v1, v2), B2(v2, v3)) == v2 && V3(B2(v2, v3)) == v3
    ensures (v1 & 0x0f) << 4 == 0 ==> V1(B0(v0, v1), 0) == v1
    ensures (v2 & 0x03) << 6 == 0 ==> V2(B1(v1, v2), 0) == v2
  {
  }

  lemma DecodeQuad(a: bv8, b: bv8, c: bv8, rest: seq<bv8>)
    ensures Decode(Quad(a, b, c) + rest) == Prepend([a, b, c], Decode(rest))
  {
    BytesToGroups(a, b, c);
    ValueOfChar(V0(a));
    ValueOfChar(V1(a, b));
    ValueOfChar(V2(b, c));
    ValueOfChar(V3(c));
    assert (Quad(a, b, c) + rest)[4..] == rest;
  }

  lemma DecodeOne(a: bv8)
    ensures Decode([Char(V0(a)), Char(V1(a, 0)), PAD, PAD]) == Some([a])
  {
    BytesToGroups(a, 0, 0);
    ValueOfChar(V0(a));
    ValueOfChar(V1(a, 0));
  }

  lemma DecodeTwo(a: bv8, b: bv8)
    ensures Decode([Char(V0(a)), Char(V1(a, b)), Char(V2(b, 0)), PAD]) == Some([a, b])
  {
    BytesToGroups(a, b, 0);
    ValueOfChar(V0(a));
    ValueOfChar(V1(a, b));
    ValueOfChar(V2(b, 0));
  }

  lemma EncodeThree(a: bv8, b: bv8, c: bv8, x: seq<bv8>)
    ensures Encode([a, b, c] + x) == Quad(a, b, c) + Encode(x)
  {
    assert ([a, b, c] + x)[3..] == x;
  }

  lemma DecodeThree(a: bv8, b: bv8, c: bv8, rest: seq<bv8>)
    requires Decode(Encode(rest)) == Some(rest)
    ensures Decode(Encode([a, b, c] + rest)) == Some([a, b, c] + rest)
  {
    EncodeThree(a, b, c, rest);
    DecodeQuad(a, b, c, Encode(rest));
  }

  lemma {:induction false} DecodeEncode(x: seq<bv8>)
    ensures Decode(Encode(x)) == Some(x)
  {
    if |x| == 1 {
      DecodeOne(x[0]);
      assert x == [x[0]];
    } else if |x| == 2 {
      DecodeTwo(x[0], x[1]);
      assert x == [x[0], x[1]];
    } else if x != [] {
      DecodeEncode(x[3..]);
      DecodeThree(x[0], x[1], x[2], x[3..]);
      assert [x[0], x[1], x[2]] + x[3..] == x;
    }
  }

  /** The value of a decoded character is turned back into the character. */
  lemma CharOfValue(c: bv8)
    requires Value(c).Some?
    ensures Value(c).value < 64 && Char(Value(c).value) == c
  {
  }

  lemma OneByteBack(t: seq<bv8>)
    requires |t| == 4 && t[2] == PAD && Decode(t).Some?
    ensures Encode(Decode(t).value) == t
  {
    var v0, v1 := Value(t[0]).value, Value(t[1]).value;
    GroupsToBytes(v0, v1, 0, 0);
    assert Decode(t).value == [B0(v0, v1)];
  }

  lemma TwoBytesBack(t: seq<bv8>)
    requires |t| == 4 && t[2] != PAD && t[3] == PAD && Decode(t).Some?
    ensures Encode(Decode(t).value) == t
  {
    var v0, v1, v2 := Value(t[0]).value, Value(t[1]).value, Value(t[2]).value;
    GroupsToBytes(v0, v1, v2, 0);
    assert Decode(t).value == [B0(v0, v1), B1(v1, v2)];
  }

  lemma QuadBack(c0: bv8, c1: bv8, c2: bv8, c3: bv8)
    requires Value(c0).Some? && Value(c1).Some? && Value(c2).Some? && Value(c3).Some?
    ensures var v0, v1, v2, v3 := Value(c0).value, Value(c1).value, Value(c2).value, Value(c3).value;
      Quad(B0(v0, v1), B1(v1, v2), B2(v2, v3)) == [c0, c1, c2, c3]
  {
    GroupsToBytes(Value(c0).value, Value(c1).value, Value(c2).value, Value(c3).value);
    CharOfValue(c0);
    CharOfValue(c1);
    CharOfValue(c2);
    CharOfValue(c3);
  }

  lemma ThreeBytesBack(c0: bv8, c1: bv8, c2: bv8, c3: bv8, rest: seq<bv8>, x: seq<bv8>)
    requires Value(c0).Some? && Value(c1).Some? && Value(c2).Some? && Value(c3).Some?
    requires Decode(rest) == Some(x) && Encode(x) == rest
    ensures Decode([c0, c1, c2, c3] + rest).Some?
    ensures Encode(Decode([c0, c1, c2, c3] + rest).value) == [c0, c1, c2, c3] + rest
  {
    var v0, v1, v2, v3 := Value(c0).value, Value(c1).value, Value(c2).value, Value(c3).value;
    FullQuantum([c0, c1, c2, c3], rest);
    QuadBack(c0, c1, c2, c3);
    EncodeThree(B0(v0, v1), B1(v1, v2), B2(v2, v3), x);
  }

  lemma {:induction false} EncodeDecode(t: seq<bv8>)
    requires Decode(t).Some?
    ensures Encode(Decode(t).value) == t
  {
    if t != [] {
      if t[2] == PAD {
        OneByteBack(t);
      } else if t[3] == PAD {
        TwoBytesBack(t);
      } else {
        EncodeDecode(t[4..]);
        ThreeBytesBack(t[0], t[1], t[2], t[3], t[4..], Decode(t[4..]).value);
        assert t == [t[0], t[1], t[2], t[3]] + t[4..];
      }
    }
  }

  /** Decoding is exact: a text yields x if and only if it is the encoding of x. */
  lemma DecodeExact(t: seq<bv8>, x: seq<bv8>)
    ensures Decode(t) == Some(x) <==> t == Encode(x)
  {
    DecodeEncode(x);
    if Decode(t) == Some(x) { EncodeDecode(t); }
  }

  /** The room a target needs for n decoded bytes: a partial quantum writes one byte ahead. */
  function Room(n: nat): nat { if n % 3 == 0 then n else n + 1 }

  lemma {:induction false} EncodeAppend(x: seq<bv8>, y: seq<bv8>)
    requires |x| % 3 == 0
    ensures Encode(x + y) == Encode(x) + Encode(y)
  {
    if x == [] {
      assert x + y == y;
    } else {
      var q := Quad(x[0], x[1], x[2]);
      assert (x + y)[3..] == x[3..] + y;
      assert Encode(x + y) == q + Encode(x[3..] + y);
      EncodeAppend(x[3..], y);
      Regroup(q, Encode(x[3..]), Encode(y));
    }
  }

  /** The last quantum, for one or two remaining bytes. */
  function Tail(rest: seq<bv8>): seq<bv8>
    requires 1 <= |rest| <= 2
  {
    var a, b := rest[0], if |rest| == 1 then 0 else rest[1];
    [Char(V0(a)), Char(V1(a, b)), if |rest| == 1 then PAD else Char(V2(b, 0)), PAD]
  }

  lemma EncodeStep(src: seq<bv8>, i: nat)
    requires i % 3 == 0 && i + 3 <= |src|
    ensures Encode(src[..i + 3]) == Encode(src[..i]) + Quad(src[i], src[i + 1], src[i + 2])
  {
    var x := [src[i], src[i + 1], src[i + 2]];
    EncodeAppend(src[..i], x);
    assert src[..i + 3] == src[..i] + x;
    assert x[3..] == [];
  }

  lemma EncodeSplit(x: seq<bv8>, y: seq<bv8>)
    requires |x| % 3 == 0 && |y| <= 2
    ensures Encode(x + y) == Encode(x) + (if y == [] then [] else Tail(y))
  {
    EncodeAppend(x, y);
    if y != [] { EncodeTail(y); }
  }

  lemma EncodeTail(rest: seq<bv8>)
    requires 1 <= |rest| <= 2
    ensures Encode(rest) == Tail(rest)
  {
  }

  method Put4(target: array<bv8>, at: nat, q: seq<bv8>)
    requires |q| == 4 && at + 4 <= target.Length
    modifies target
    ensures target[..at + 4] == old(target[..at]) + q
  {
    target[at] := q[0];
    target[at + 1] := q[1];
    target[at + 2] := q[2];
    target[at + 3] := q[3];
  }

  /** The loop of adb_b64_ntop over whole groups of three bytes. */
  method Quads(src: seq<bv8>, target: array<bv8>, targsize: nat) returns (ok: bool, i: nat, datalength: nat)
    requires targsize <= target.Length
    modifies target
    ensures i <= |src| && i % 3 == 0 && 3 * datalength == 4 * i && datalength <= targsize
    ensures ok ==> |src| - i <= 2 && target[..datalength] == Encode(src[..i])
    ensures !ok ==> |src| - i >= 3 && datalength + 4 > targsize
  {
    ok, i, datalength := true, 0, 0;
    while 2 < |src| - i
      invariant 0 <= i <= |src| && i % 3 == 0 && 3 * datalength == 4 * i && datalength <= targsize
      invariant target[..datalength] == Encode(src[..i])
    {
      if datalength + 4 > targsize { return false, i, datalength; }
      EncodeStep(src, i);
      Put4(target, datalength, Quad(src[i], src[i + 1], src[i + 2]));
      i := i + 3;
      datalength := datalength + 4;
    }
  }

  /** The end of adb_b64_ntop: the last one or two bytes, if any, and the NUL. */
  method Finish(src: seq<bv8>, i: nat, target: array<bv8>, targsize: nat, length: nat) returns (r: int)
    requires i <= |src| <= i + 2 && i % 3 == 0 && length <= targsize <= target.Length
    requires target[..length] == Encode(src[..i])
    modifies target
    ensures var all := length + (if i == |src| then 0 else 4);
      if all < targsize then r == all && target[..r] == Encode(src) && target[r] == 0 else r == -1
  {
    var datalength := length;
    EncodeSplit(src[..i], src[i..]);
    assert src == src[..i] + src[i..];
    if i != |src| {
      if datalength + 4 > targsize { return -1; }
      Put4(target, datalength, Tail(src[i..]));
      datalength := datalength + 4;
    }
    if datalength >= targsize { return -1; }
    target[datalength] := 0;
    r := datalength;
  }

  /** adb_b64_ntop: the encoder, writing into target[..targsize]. */
  method Ntop(src: seq<bv8>, target: array<bv8>, targsize: nat) returns (r: int)
    requires targsize <= target.Length
    modifies target
    ensures r == -1 || r >= 0
    ensures r >= 0 <==> targsize > 4 * ((|src| + 2) / 3)
    ensures r >= 0 ==> r == 4 * ((|src| + 2) / 3) && target[..r] == Encode(src) && target[r] == 0
  {
    var ok, i, datalength := Quads(src, target, targsize);
    Groups(|src|, i, datalength);
    if !ok { return -1; }
    r := Finish(src, i, target, targsize, datalength);
  }

  lemma Groups(n: nat, i: nat, length: nat)
    requires i <= n && i % 3 == 0 && 3 * length == 4 * i
    ensures n - i <= 2 ==> 4 * ((n + 2) / 3) == length + (if i == n then 0 else 4)
    ensures n - i >= 3 ==> 4 * ((n + 2) / 3) >= length + 4
  {
  }

  // ---- the decoder ----

  predicate Digits(pc: seq<bv8>) {
    forall i :: 0 <= i < |pc| ==> Value(pc[i]).Some?
  }

  /** A character outside the alphabet, or '=' too early, spoils the text. */
  lemma BadChar(pc: seq<bv8>, c: bv8, rest: seq<bv8>)
    requires Digits(pc) && |pc| <= 3 && Value(c).None? && (c == PAD ==> |pc| <= 1)
    ensures Decode(pc + [c] + rest).None?
  {
    var t := pc + [c] + rest;
    assert t[|pc|] == c;
    if |pc| >= 1 { assert t[0] == pc[0]; }
  }

  /** '=' after two digits: one more '=', nothing else, and zero slack bits. */
  lemma PadAfterTwo(pc: seq<bv8>, rest: seq<bv8>)
    requires Digits(pc) && |pc| == 2
    ensures var v0, v1 := Value(pc[0]).value, Value(pc[1]).value;
      Decode(pc + [PAD] + rest)
        == if rest == [PAD] && (v1 & 0x0f) << 4 == 0 then Some([B0(v0, v1)]) else None
  {
    var t := pc + [PAD] + rest;
    assert t[0] == pc[0] && t[1] == pc[1] && t[2] == PAD;
    assert rest != [] ==> t[3] == rest[0];
    assert |t| == 4 && t[3] == PAD <==> rest == [PAD];
  }

  /** '=' after three digits: nothing else, and zero slack bits. */
  lemma PadAfterThree(pc: seq<bv8>, rest: seq<bv8>)
    requires Digits(pc) && |pc| == 3
    ensures var v0, v1, v2 := Value(pc[0]).value, Value(pc[1]).value, Value(pc[2]).value;
      Decode(pc + [PAD] + rest)
        == if rest == [] && (v2 & 0x03) << 6 == 0 then Some([B0(v0, v1), B1(v1, v2)]) else None
  {
    var t := pc + [PAD] + rest;
    assert t[0] == pc[0] && t[1] == pc[1] && t[2] == pc[2] && t[3] == PAD;
    assert pc[2] != PAD;
  }

  lemma FullQuantum(pc: seq<bv8>, rest: seq<bv8>)
    requires Digits(pc) && |pc| == 4
    ensures var v0, v1, v2, v3 :=
        Value(pc[0]).value, Value(pc[1]).value, Value(pc[2]).value, Value(pc[3]).value;
      Decode(pc + rest) == Prepend([B0(v0, v1), B1(v1, v2), B2(v2, v3)], Decode(rest))
  {
    var t := pc + rest;
    assert t[0] == pc[0] && t[1] == pc[1] && t[2] == pc[2] && t[3] == pc[3] && t[4..] == rest;
    assert pc[2] != PAD && pc[3] != PAD;
  }

  lemma PartialQuantum(pc: seq<bv8>)
    requires |pc| <= 3
    ensures Decode(pc) == if pc == [] then Some([]) else None
  {
  }

  /** What is decoded from a text whose first quantum has at least |pc| digits. */
  lemma {:induction false} DecodedRoom(pc: seq<bv8>, rest: seq<bv8>)
    requires Digits(pc) && 1 <= |pc| <= 4 && Decode(pc + rest).Some?
    ensures var y := Decode(pc + rest).value;
      |y| >= 1 && Room(|y|) >= 2 && (|pc| >= 3 ==> |y| >= 2 && Room(|y|) >= 3) && (|pc| == 4 ==> |y| >= 3)
  {
    var t := pc + rest;
    forall i | 0 <= i < |pc| ensures t[i] == pc[i] && pc[i] != PAD {}
  }

  lemma PrependTwice(x: seq<bv8>, y: seq<bv8>, r: Option<seq<bv8>>)
    ensures Prepend(x, Prepend(y, r)) == Prepend(x + y, r)
  {
    if r.Some? { Regroup(x, y, r.value); }
  }

  lemma StripNext(s: seq<bv8>, i: nat)
    requires i < |s|
    ensures Strip(s[i..]) == (if IsSpace(s[i]) then [] else [s[i]]) + Strip(s[i + 1..])
  {
    assert s[i..][1..] == s[i + 1..];
  }

  /** The target room that the answer to a text needs. */
  predicate Fits(whole: Option<seq<bv8>>, targsize: nat) {
    whole.Some? && Room(|whole.value|) <= targsize
  }

  lemma TooSmall(done: seq<bv8>, pc: seq<bv8>, rest: seq<bv8>, targsize: nat)
    requires |done| % 3 == 0 && Digits(pc) && 1 <= |pc| <= 4
    requires |pc| == 1 ==> |done| >= targsize
    requires |pc| == 2 ==> |done| + 1 >= targsize
    requires |pc| >= 3 ==> |done| + 2 >= targsize
    ensures !Fits(Prepend(done, Decode(pc + rest)), targsize)
  {
    if Decode(pc + rest).Some? {
      DecodedRoom(pc, rest);
      var y := Decode(pc + rest).value;
      assert |done + y| == |done| + |y|;
      assert (|done| + |y|) % 3 == |y| % 3;
    }
  }

  /** The values of a sequence of digits. */
  ghost function Values(pc: seq<bv8>): (vs: seq<bv8>)
    requires Digits(pc)
    ensures |vs| == |pc| && forall i :: 0 <= i < |pc| ==> vs[i] == Value(pc[i]).value
  {
    seq(|pc|, i requires 0 <= i < |pc| => Value(pc[i]).value)
  }

  /** The bytes that the digits vs of an unfinished quantum leave in the target. */
  ghost function Bytes(vs: seq<bv8>): seq<bv8>
    requires |vs| <= 3
  {
    if |vs| == 0 then []
    else if |vs| == 1 then [vs[0] << 2]
    else if |vs| == 2 then [B0(vs[0], vs[1]), (vs[1] & 0x0f) << 4]
    else [B0(vs[0], vs[1]), B1(vs[1], vs[2]), (vs[2] & 0x03) << 6]
  }

  /**
   * The target after the digits vs of an unfinished quantum: the finished bytes, the
   * bytes of this quantum known so far, and the leading bits of the next one.
   */
  ghost predicate Holds(t: seq<bv8>, targsize: nat, state: nat, tarindex: nat, done: seq<bv8>, vs: seq<bv8>) {
    && |vs| == state <= 3
    && |done| % 3 == 0 && |done| + state <= targsize <= |t|
    && tarindex == |done| + (if state <= 1 then 0 else state - 1)
    && t[..|done| + state] == done + Bytes(vs)
  }

  /** The finished bytes after one more digit. */
  ghost function Finished(done: seq<bv8>, vs: seq<bv8>, pos: bv8): seq<bv8>
    requires |vs| <= 3
  {
    if |vs| < 3 then done else done + [B0(vs[0], vs[1]), B1(vs[1], vs[2]), B2(vs[2], pos)]
  }

  /** The target after the writes for one more digit. */
  ghost function DigitWritten(t: seq<bv8>, n: nat, state: nat, pos: bv8): seq<bv8>
    requires state <= 3 && n + (if state == 3 then 3 else state + 1) <= |t|
  {
    if state == 0 then t[n := pos << 2]
    else if state == 1 then t[n := t[n] | (pos >> 4)][n + 1 := (pos & 0x0f) << 4]
    else if state == 2 then t[n + 1 := t[n + 1] | (pos >> 2)][n + 2 := (pos & 0x03) << 6]
    else t[n + 2 := t[n + 2] | pos]
  }

  lemma SetOne<T>(t: seq<T>, n: nat, a: T)
    requires n < |t|
    ensures t[n := a][..n + 1] == t[..n] + [a]
  {
  }

  lemma SetTwo<T>(t: seq<T>, n: nat, a: T, b: T)
    requires n + 1 < |t|
    ensures t[n := a][n + 1 := b][..n + 2] == t[..n] + [a, b]
  {
  }

  lemma SplitLast<T>(t: seq<T>, n: nat, d: seq<T>, x: T)
    requires n < |t| && t[..n + 1] == d + [x]
    ensures t[n] == x && t[..n] == d
  {
    assert t[..n + 1][n] == x && t[..n + 1][..n] == d;
  }

  /** Extending the known bytes by a write after them, and by two writes at their end. */
  lemma WriteAfter<T>(t: seq<T>, d: seq<T>, a: T)
    requires |d| < |t| && t[..|d|] == d
    ensures t[|d| := a][..|d| + 1] == d + [a]
  {
    SetOne(t, |d|, a);
  }

  lemma WriteOverLast<T>(t: seq<T>, d: seq<T>, x: T, a: T)
    requires |d| < |t| && t[..|d| + 1] == d + [x]
    ensures t[|d|] == x && t[|d| := a][..|d| + 1] == d + [a]
    ensures forall b :: |d| + 1 < |t| ==> t[|d| := a][|d| + 1 := b][..|d| + 2] == d + [a, b]
  {
    SplitLast(t, |d|, d, x);
    forall b | |d| + 1 < |t| ensures t[|d| := a][|d| + 1 := b][..|d| + 2] == d + [a, b] {
      SetTwo(t, |d|, a, b);
    }
  }

  lemma FirstDigitBytes(t: seq<bv8>, n: nat, done: seq<bv8>, pos: bv8)
    requires n == |done| && n + 1 <= |t| && t[..n] == done
    ensures DigitWritten(t, n, 0, pos)[..n + 1] == done + Bytes([pos])
  {
    WriteAfter(t, done, pos << 2);
  }

  lemma SecondDigitBytes(t: seq<bv8>, n: nat, done: seq<bv8>, v: bv8, pos: bv8)
    requires n == |done| && n + 2 <= |t| && t[..n + 1] == done + [v << 2]
    ensures DigitWritten(t, n, 1, pos)[..n + 2] == done + Bytes([v, pos])
  {
    WriteOverLast(t, done, v << 2, (v << 2) | (pos >> 4));
  }

  lemma ThirdDigitBytes(t: seq<bv8>, n: nat, done: seq<bv8>, v: bv8, w: bv8, pos: bv8)
    requires n == |done| && n + 3 <= |t| && t[..n + 2] == done + [B0(v, w), (w & 0x0f) << 4]
    ensures DigitWritten(t, n, 2, pos)[..n + 3] == done + Bytes([v, w, pos])
  {
    var b, x := B0(v, w), (w & 0x0f) << 4;
    assert done + [b, x] == (done + [b]) + [x];
    WriteOverLast(t, done + [b], x, x | (pos >> 2));
    assert (done + [b]) + [x | (pos >> 2), (pos & 0x03) << 6] == done + [b, x | (pos >> 2), (pos & 0x03) << 6];
  }

  lemma DigitBytes(t: seq<bv8>, n: nat, done: seq<bv8>, vs: seq<bv8>, pos: bv8)
    requires n == |done| && |vs| < 3 && n + |vs| + 1 <= |t| && t[..n + |vs|] == done + Bytes(vs)
    ensures DigitWritten(t, n, |vs|, pos)[..n + |vs| + 1] == done + Bytes(vs + [pos])
  {
    if |vs| == 0 {
      assert vs + [pos] == [pos];
      FirstDigitBytes(t, n, done, pos);
    } else if |vs| == 1 {
      assert vs + [pos] == [vs[0], pos];
      SecondDigitBytes(t, n, done, vs[0], pos);
    } else {
      assert vs + [pos] == [vs[0], vs[1], pos];
      ThirdDigitBytes(t, n, done, vs[0], vs[1], pos);
    }
  }

  lemma LastDigitBytes(t: seq<bv8>, n: nat, done: seq<bv8>, vs: seq<bv8>, pos: bv8)
    requires n == |done| && |vs| == 3 && n + 3 <= |t| && t[..n + 3] == done + Bytes(vs)
    ensures DigitWritten(t, n, 3, pos)[..n + 3] == Finished(done, vs, pos)
  {
    var b, c, x := B0(vs[0], vs[1]), B1(vs[1], vs[2]), (vs[2] & 0x03) << 6;
    assert done + [b, c, x] == (done + [b, c]) + [x];
    WriteOverLast(t, done + [b, c], x, x | pos);
    assert (done + [b, c]) + [x | pos] == done + [b, c, x | pos];
  }

  method Put(target: array<bv8>, at: nat, b: bv8)
    requires at < target.Length
    modifies target
    ensures target[..] == old(target[..])[at := b]
  {
    target[at] := b;
  }

  /** Two neighbouring writes, of which the first adds bits to what is there. */
  method PutTwo(target: array<bv8>, at: nat, more: bv8, next: bv8)
    requires at + 1 < target.Length
    modifies target
    ensures var t := old(target[..]); target[..] == t[at := t[at] | more][at + 1 := next]
  {
    Put(target, at, target[at] | more);
    Put(target, at + 1, next);
  }

  method PutMore(target: array<bv8>, at: nat, more: bv8)
    requires at < target.Length
    modifies target
    ensures var t := old(target[..]); target[..] == t[at := t[at] | more]
  {
    Put(target, at, target[at] | more);
  }

  method FirstDigit(target: array<bv8>, tarindex: nat, pos: bv8)
    requires tarindex + 1 <= target.Length
    modifies target
    ensures target[..] == DigitWritten(old(target[..]), tarindex, 0, pos)
  {
    Put(target, tarindex, pos << 2);
  }

  method SecondDigit(target: array<bv8>, tarindex: nat, pos: bv8)
    requires tarindex + 2 <= target.Length
    modifies target
    ensures target[..] == DigitWritten(old(target[..]), tarindex, 1, pos)
  {
    PutTwo(target, tarindex, pos >> 4, (pos & 0x0f) << 4);
  }

  method ThirdDigit(target: array<bv8>, tarindex: nat, pos: bv8)
    requires 1 <= tarindex && tarindex + 2 <= target.Length
    modifies target
    ensures target[..] == DigitWritten(old(target[..]), tarindex - 1, 2, pos)
  {
    PutTwo(target, tarindex, pos >> 2, (pos & 0x03) << 6);
  }

  method FourthDigit(target: array<bv8>, tarindex: nat, pos: bv8)
    requires 2 <= tarindex && tarindex + 1 <= target.Length
    modifies target
    ensures target[..] == DigitWritten(old(target[..]), tarindex - 2, 3, pos)
  {
    PutMore(target, tarindex, pos);
  }

  /** The switch of adb_b64_pton: the writes for one digit of value `pos` in a quantum that starts at n. */
  method WriteDigit(target: array<bv8>, targsize: nat, state: nat, tarindex: nat, pos: bv8, ghost n: nat)
    returns (ok: bool, state': nat, tarindex': nat)
    requires state <= 3 && targsize <= target.Length && tarindex == n + (if state <= 1 then 0 else state - 1)
    modifies target
    ensures ok <==> n + (if state <= 1 then state else 2) < targsize
    ensures ok ==> state' == (if state == 3 then 0 else state + 1)
    ensures ok ==> tarindex' == n + state
    ensures ok ==> target[..] == DigitWritten(old(target[..]), n, state, pos)
  {
    ok, state', tarindex' := false, state, tarindex;
    match state {
      case 0 =>
        if tarindex >= targsize { return; }
        FirstDigit(target, tarindex, pos);
        state' := 1;
      case 1 =>
        if tarindex + 1 >= targsize { return; }
        SecondDigit(target, tarindex, pos);
        tarindex' := tarindex + 1;
        state' := 2;
      case 2 =>
        if tarindex + 1 >= targsize { return; }
        ThirdDigit(target, tarindex, pos);
        tarindex' := tarindex + 1;
        state' := 3;
      case _ =>
        if tarindex >= targsize { return; }
        FourthDigit(target, tarindex, pos);
        tarindex' := tarindex + 1;
        state' := 0;
    }
    ok := true;
  }

  /** One digit: the target holds one digit more, or was too small for it. */
  method TakeDigit(target: array<bv8>, targsize: nat, state: nat, tarindex: nat, pos: bv8,
                   ghost done: seq<bv8>, ghost vs: seq<bv8>)
    returns (ok: bool, state': nat, tarindex': nat)
    requires Holds(target[..], targsize, state, tarindex, done, vs)
    modifies target
    ensures ok ==>
      && state' == (if state == 3 then 0 else state + 1)
      && Holds(target[..], targsize, state', tarindex', Finished(done, vs, pos), if state == 3 then [] else vs + [pos])
    ensures !ok ==> |done| + (if state <= 1 then state else 2) >= targsize
  {
    ghost var t := target[..];
    ok, state', tarindex' := WriteDigit(target, targsize, state, tarindex, pos, |done|);
    if ok { DigitHeld(t, targsize, done, vs, pos); }
  }

  lemma DigitHeld(t: seq<bv8>, targsize: nat, done: seq<bv8>, vs: seq<bv8>, pos: bv8)
    requires |vs| <= 3 && |done| % 3 == 0 && |done| + (if |vs| <= 1 then |vs| else 2) < targsize <= |t|
    requires t[..|done| + |vs|] == done + Bytes(vs)
    ensures Holds(DigitWritten(t, |done|, |vs|, pos), targsize, if |vs| == 3 then 0 else |vs| + 1, |done| + |vs|,
                  Finished(done, vs, pos), if |vs| == 3 then [] else vs + [pos])
  {
    if |vs| == 3 {
      LastDigitBytes(t, |done|, done, vs, pos);
      assert Finished(done, vs, pos) + [] == Finished(done, vs, pos);
    } else {
      DigitBytes(t, |done|, done, vs, pos);
    }
  }

  /** Skip white space: the index of the first other character, or the end. */
  method SkipSpaces(src: seq<bv8>, from: nat) returns (i: nat)
    requires from <= |src|
    ensures from <= i <= |src| && (i < |src| ==> !IsSpace(src[i]))
    ensures Strip(src[i..]) == Strip(src[from..])
    ensures i == |src| <==> Strip(src[from..]) == []
  {
    i := from;
    while i < |src| && IsSpace(src[i])
      invariant from <= i <= |src| && Strip(src[i..]) == Strip(src[from..])
    {
      StripNext(src, i);
      i := i + 1;
    }
    if i < |src| { StripNext(src, i); }
  }

  /** After '=' come white space and `pads` more '=', with white space around them, and nothing else. */
  method OnlyPads(src: seq<bv8>, from: nat, pads: nat) returns (ok: bool)
    requires from <= |src| && pads <= 1
    ensures ok <==> Strip(src[from..]) == if pads == 0 then [] else [PAD]
  {
    var rest := from;
    if pads == 1 {
      rest := SkipSpaces(src, rest);
      if rest == |src| { return false; }
      StripNext(src, rest);
      assert Strip(src[from..])[0] == src[rest];
      if src[rest] != PAD { return false; }
      rest := rest + 1;
      assert Strip(src[from..]) == [PAD] + Strip(src[rest..]);
    }
    var end := SkipSpaces(src, rest);
    ok := end == |src|;
  }

  /** '=' after two or three digits: the right number of pads follows, and the byte begun last is zero. */
  lemma PadBytes(pc: seq<bv8>, tail: seq<bv8>)
    requires Digits(pc) && 2 <= |pc| <= 3
    ensures var b := Bytes(Values(pc));
      Decode(pc + [PAD] + tail)
        == if tail == (if |pc| == 2 then [PAD] else []) && b[|pc| - 1] == 0 then Some(b[..|pc| - 1]) else None
  {
    var b := Bytes(Values(pc));
    if |pc| == 2 {
      PadAfterTwo(pc, tail);
      assert b[..1] == [b[0]];
    } else {
      PadAfterThree(pc, tail);
      assert b[..2] == [b[0], b[1]];
    }
  }

  lemma PrependSome(x: seq<bv8>, ok: bool, y: seq<bv8>)
    ensures Prepend(x, if ok then Some(y) else None) == if ok then Some(x + y) else None
  {
  }

  /** The same, for '=' at src[i]. */
  lemma Padded(whole: Option<seq<bv8>>, src: seq<bv8>, i: nat, done: seq<bv8>, pc: seq<bv8>)
    requires i < |src| && src[i] == PAD && Reading(whole, src, i, done, pc) && |pc| >= 2
    ensures var b, tail := Bytes(Values(pc)), Strip(src[i + 1..]);
      whole == if tail == (if |pc| == 2 then [PAD] else []) && b[|pc| - 1] == 0
        then Some(done + b[..|pc| - 1]) else None
  {
    var b, tail := Bytes(Values(pc)), Strip(src[i + 1..]);
    ReadNext(whole, src, i, done, pc);
    PadBytes(pc, tail);
    PrependSome(done, tail == (if |pc| == 2 then [PAD] else []) && b[|pc| - 1] == 0, b[..|pc| - 1]);
  }

  lemma PaddedEarly(whole: Option<seq<bv8>>, src: seq<bv8>, i: nat, done: seq<bv8>, pc: seq<bv8>)
    requires i < |src| && src[i] == PAD && Reading(whole, src, i, done, pc) && |pc| <= 1
    ensures whole.None?
  {
    ReadNext(whole, src, i, done, pc);
    BadChar(pc, PAD, Strip(src[i + 1..]));
  }

  lemma LastByte(t: seq<bv8>, n: nat, done: seq<bv8>, b: seq<bv8>)
    requires n == |done| && b != [] && n + |b| <= |t| && t[..n + |b|] == done + b
    ensures t[n + |b| - 1] == b[|b| - 1] && t[..n + |b| - 1] == done + b[..|b| - 1]
  {
    assert t[n + |b| - 1] == t[..n + |b|][n + |b| - 1];
    assert t[..n + |b| - 1] == t[..n + |b|][..n + |b| - 1];
  }

  /** The part of adb_b64_pton after the first '=', which stands at src[i]. */
  method Padding(ghost whole: Option<seq<bv8>>, src: seq<bv8>, i: nat, target: array<bv8>, targsize: nat, state: nat, tarindex: nat,
                 ghost done: seq<bv8>, ghost pc: seq<bv8>)
    returns (r: int)
    requires i < |src| && src[i] == PAD && Reading(whole, src, i, done, pc)
    requires Holds(target[..], targsize, state, tarindex, done, Values(pc))
    ensures if Fits(whole, targsize) then r == |whole.value| && target[..r] == whole.value else r == -1
  {
    if state <= 1 {
      PaddedEarly(whole, src, i, done, pc);
      return -1;
    }
    Padded(whole, src, i, done, pc);
    var ok := OnlyPads(src, i + 1, 3 - state);
    if !ok { return -1; }
    LastByte(target[..], |done|, done, Bytes(Values(pc)));
    if target[tarindex] != 0 { return -1; }
    r := tarindex;
  }

  /** Up to src[i] everything is read, and the target and the counters hold it. */
  ghost predicate Scanned(whole: Option<seq<bv8>>, src: seq<bv8>, i: nat, t: seq<bv8>, targsize: nat, state: nat,
                          tarindex: nat, done: seq<bv8>, pc: seq<bv8>)
  {
    i <= |src| && Reading(whole, src, i, done, pc) && Holds(t, targsize, state, tarindex, done, Values(pc))
  }

  lemma ScanStarts(whole: Option<seq<bv8>>, src: seq<bv8>, t: seq<bv8>, targsize: nat)
    requires targsize <= |t| && Reading(whole, src, 0, [], [])
    ensures Scanned(whole, src, 0, t, targsize, 0, 0, [], [])
  {
    assert t[..0] == [] + Bytes(Values([]));
  }

  /** One character before the first '=': white space is skipped, anything else is taken or refused. */
  method ScanOne(ghost whole: Option<seq<bv8>>, src: seq<bv8>, i: nat, target: array<bv8>, targsize: nat, state: nat,
                 tarindex: nat, ghost done: seq<bv8>, ghost pc: seq<bv8>)
    returns (ok: bool, state': nat, tarindex': nat, ghost done': seq<bv8>, ghost pc': seq<bv8>)
    requires i < |src| && src[i] != PAD && Scanned(whole, src, i, target[..], targsize, state, tarindex, done, pc)
    modifies target
    ensures ok ==> Scanned(whole, src, i + 1, target[..], targsize, state', tarindex', done', pc')
    ensures !ok ==> !Fits(whole, targsize)
  {
    if IsSpace(src[i]) {
      SpaceRead(whole, src, i, done, pc);
      return true, state, tarindex, done, pc;
    }
    ok, state', tarindex', done', pc' := TakeChar(whole, src, i, target, targsize, state, tarindex, done, pc);
  }

  /** The loop of adb_b64_pton, up to the first '=' or the end. */
  method Scan(ghost whole: Option<seq<bv8>>, src: seq<bv8>, target: array<bv8>, targsize: nat)
    returns (ok: bool, i: nat, state: nat, tarindex: nat, ghost done: seq<bv8>, ghost pc: seq<bv8>)
    requires targsize <= target.Length && Reading(whole, src, 0, [], [])
    modifies target
    ensures ok ==> i <= |src| && (i < |src| ==> src[i] == PAD)
    ensures ok ==> Scanned(whole, src, i, target[..], targsize, state, tarindex, done, pc)
    ensures !ok ==> !Fits(whole, targsize)
  {
    ok, state, tarindex, i := true, 0, 0, 0;
    done, pc := [], [];
    ScanStarts(whole, src, target[..], targsize);
    ghost var t := target[..];
    while i < |src| && src[i] != PAD
      invariant t == target[..] && ok && i <= |src|
      invariant Scanned(whole, src, i, t, targsize, state, tarindex, done, pc)
    {
      ok, state, tarindex, done, pc := ScanOne(whole, src, i, target, targsize, state, tarindex, done, pc);
      t := target[..];
      if !ok { return; }
      i := i + 1;
    }
  }

  /** adb_b64_pton: the decoder.  src is the text before the terminating NUL. */
  method Pton(src: seq<bv8>, target: array<bv8>, targsize: nat) returns (r: int)
    requires targsize <= target.Length
    modifies target
    ensures var whole := Decode(Strip(src));
      if whole.Some? && |whole.value| + (if |whole.value| % 3 == 0 then 0 else 1) <= targsize
      then r == |whole.value| && target[..r] == whole.value else r == -1
  {
    ghost var whole := Decode(Strip(src));
    Started(src);
    var ok, i, state, tarindex, done, pc := Scan(whole, src, target, targsize);
    if !ok { return -1; }
    if i < |src| {
      r := Padding(whole, src, i, target, targsize, state, tarindex, done, pc);
    } else {
      ReadAll(whole, src, done, pc);
      r := if state != 0 then -1 else tarindex;
    }
  }

  lemma ReadAll(whole: Option<seq<bv8>>, src: seq<bv8>, done: seq<bv8>, pc: seq<bv8>)
    requires Reading(whole, src, |src|, done, pc)
    ensures whole == if pc == [] then Some(done) else None
  {
    assert pc + Strip(src[|src|..]) == pc;
    PartialQuantum(pc);
    assert done + [] == done;
  }

  /** One character that is neither white space nor '='. */
  method TakeChar(ghost whole: Option<seq<bv8>>, src: seq<bv8>, i: nat, target: array<bv8>, targsize: nat, state: nat, tarindex: nat,
                  ghost done: seq<bv8>, ghost pc: seq<bv8>)
    returns (ok: bool, state': nat, tarindex': nat, ghost done': seq<bv8>, ghost pc': seq<bv8>)
    requires i < |src| && src[i] != PAD && !IsSpace(src[i]) && Reading(whole, src, i, done, pc)
    requires Holds(target[..], targsize, state, tarindex, done, Values(pc))
    modifies target
    ensures ok ==> Reading(whole, src, i + 1, done', pc')
    ensures ok ==> Holds(target[..], targsize, state', tarindex', done', Values(pc'))
    ensures !ok ==> !Fits(whole, targsize)
  {
    ok, state', tarindex', done', pc' := false, state, tarindex, done, pc;
    var pos := Value(src[i]);
    if pos.None? {
      NotADigit(whole, src, i, done, pc);
      return;
    }
    ok, state', tarindex' := TakeDigit(target, targsize, state, tarindex, pos.value, done, Values(pc));
    if !ok {
      NoRoom(whole, src, i, done, pc, targsize);
      return;
    }
    DigitRead(whole, src, i, done, pc);
    ValuesAppend(pc, src[i]);
    done', pc' := Finished(done, Values(pc), pos.value), if |pc| == 3 then [] else pc + [src[i]];
  }

  lemma NotADigit(whole: Option<seq<bv8>>, src: seq<bv8>, i: nat, done: seq<bv8>, pc: seq<bv8>)
    requires i < |src| && src[i] != PAD && !IsSpace(src[i]) && Value(src[i]).None? && Reading(whole, src, i, done, pc)
    ensures whole.None?
  {
    ReadNext(whole, src, i, done, pc);
    BadChar(pc, src[i], Strip(src[i + 1..]));
  }

  lemma NoRoom(whole: Option<seq<bv8>>, src: seq<bv8>, i: nat, done: seq<bv8>, pc: seq<bv8>, targsize: nat)
    requires i < |src| && Value(src[i]).Some? && Reading(whole, src, i, done, pc)
    requires |done| % 3 == 0 && |done| + (if |pc| <= 1 then |pc| else 2) >= targsize
    ensures !Fits(whole, targsize)
  {
    ReadNext(whole, src, i, done, pc);
    TooSmall(done, pc + [src[i]], Strip(src[i + 1..]), targsize);
  }

  /** Up to src[i] the bytes `done` and the digits `pc` have been read. */
  ghost predicate Reading(whole: Option<seq<bv8>>, src: seq<bv8>, i: nat, done: seq<bv8>, pc: seq<bv8>)
    requires i <= |src|
  {
    |pc| <= 3 && Digits(pc) && whole == Prepend(done, Decode(pc + Strip(src[i..])))
  }

  lemma Started(src: seq<bv8>)
    ensures Reading(Decode(Strip(src)), src, 0, [], [])
  {
    assert src[0..] == src && [] + Strip(src) == Strip(src);
    if Decode(Strip(src)).Some? { assert [] + Decode(Strip(src)).value == Decode(Strip(src)).value; }
  }

  lemma ReadNext(whole: Option<seq<bv8>>, src: seq<bv8>, i: nat, done: seq<bv8>, pc: seq<bv8>)
    requires i < |src| && Reading(whole, src, i, done, pc)
    ensures IsSpace(src[i]) ==> Reading(whole, src, i + 1, done, pc)
    ensures !IsSpace(src[i]) ==>
      whole == Prepend(done, Decode(pc + [src[i]] + Strip(src[i + 1..])))
  {
    StripNext(src, i);
    assert [] + Strip(src[i + 1..]) == Strip(src[i + 1..]);
    Regroup(pc, [src[i]], Strip(src[i + 1..]));
  }

  lemma SpaceRead(whole: Option<seq<bv8>>, src: seq<bv8>, i: nat, done: seq<bv8>, pc: seq<bv8>)
    requires i < |src| && Reading(whole, src, i, done, pc) && IsSpace(src[i])
    ensures Reading(whole, src, i + 1, done, pc)
  {
    ReadNext(whole, src, i, done, pc);
  }

  lemma DigitRead(whole: Option<seq<bv8>>, src: seq<bv8>, i: nat, done: seq<bv8>, pc: seq<bv8>)
    requires i < |src| && Reading(whole, src, i, done, pc) && Value(src[i]).Some?
    ensures !IsSpace(src[i])
    ensures Reading(whole, src, i + 1, Finished(done, Values(pc), Value(src[i]).value), if |pc| == 3 then [] else pc + [src[i]])
  {
    ReadNext(whole, src, i, done, pc);
    QuantumStep(done, pc, src[i], Strip(src[i + 1..]));
  }

  lemma ValuesAppend(pc: seq<bv8>, c: bv8)
    requires Digits(pc) && Value(c).Some?
    ensures Values(pc + [c]) == Values(pc) + [Value(c).value]
  {
  }

  lemma QuantumStep(done: seq<bv8>, pc: seq<bv8>, c: bv8, rest: seq<bv8>)
    requires Digits(pc) && |pc| <= 3 && Value(c).Some?
    ensures Prepend(done, Decode(pc + [c] + rest))
      == Prepend(Finished(done, Values(pc), Value(c).value), Decode((if |pc| == 3 then [] else pc + [c]) + rest))
  {
    if |pc| == 3 {
      FullQuantum(pc + [c], rest);
      var vs := Values(pc);
      PrependTwice(done, [B0(vs[0], vs[1]), B1(vs[1], vs[2]), B2(vs[2], Value(c).value)], Decode(rest));
      assert [] + rest == rest;
    }
  }
}
