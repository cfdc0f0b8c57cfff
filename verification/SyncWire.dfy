/**
 * The messages of a file-sync session (adbd/include/file_sync_service.h), as little-endian
 * bytes, and the client that reads the answers back.
 */
module SyncWire {
  import opened Common
  import opened Framing

  const SYNC_DATA_MAX: nat := 65536

  const ID_STAT: seq<byte> := [83, 84, 65, 84]
  const ID_LIST: seq<byte> := [76, 73, 83, 84]
  const ID_SEND: seq<byte> := [83, 69, 78, 68]
  const ID_RECV: seq<byte> := [82, 69, 67, 86]
  const ID_QUIT: seq<byte> := [81, 85, 73, 84]
  const ID_DENT: seq<byte> := [68, 69, 78, 84]
  const ID_DONE: seq<byte> := [68, 79, 78, 69]
  const ID_DATA: seq<byte> := [68, 65, 84, 65]
  const ID_OKAY: seq<byte> := [79, 75, 65, 89]
  const ID_FAIL: seq<byte> := [70, 65, 73, 76]

  function Text(s: string): (r: seq<byte>)
    ensures |r| == |s|
  {
    seq(|s|, i requires 0 <= i < |s| => s[i] as int % 256)
  }

  /** The identifiers are the four letters of their names. */
  lemma IdsAreText()
    ensures ID_STAT == Text("STAT") && ID_LIST == Text("LIST") && ID_SEND == Text("SEND") && ID_RECV == Text("RECV")
    ensures ID_QUIT == Text("QUIT") && ID_DENT == Text("DENT") && ID_DONE == Text("DONE") && ID_DATA == Text("DATA")
    ensures ID_OKAY == Text("OKAY") && ID_FAIL == Text("FAIL")
  {
  }

  type Chunk64 = d: seq<byte> | |d| <= SYNC_DATA_MAX
  type Reason = r: seq<byte> | |r| < 0x1_0000_0000
  type Name = n: seq<byte> | |n| <= 1024
  type Leaf = n: seq<byte> | |n| < 256

  datatype Meta = Meta(mode: u32, size: u32, time: u32)
  datatype Entry = Entry(meta: Meta, name: Leaf)

  /** What a client asks for. */
  datatype Request =
    | Stat(name: Name)
    | List(name: Name)
    | Recv(name: Name)
    | Send(name: Name, chunks: seq<Chunk64>, stamp: u32)

  /** What it is told: a failed RECV may already have delivered some data. */
  datatype Answer =
    | StatAnswer(meta: Meta)
    | ListAnswer(entries: seq<Entry>)
    | RecvAnswer(chunks: seq<Chunk64>, failed: Option<Reason>)
    | SendAnswer(failed: Option<Reason>)

  predicate Answers(q: Request, a: Answer) {
    match q
    case Stat(_) => a.StatAnswer?
    case List(_) => a.ListAnswer?
    case Recv(_) => a.RecvAnswer?
    case Send(_, _, _) => a.SendAnswer?
  }

  // ---- bytes ----

  function DataMsg(d: Chunk64): seq<byte> { ID_DATA + Le(|d|) + d }
  function DoneMsg(stamp: u32): seq<byte> { ID_DONE + Le(stamp) }
  function OkayMsg(): seq<byte> { ID_OKAY + Le(0) }
  function FailMsg(reason: Reason): seq<byte> { ID_FAIL + Le(|reason|) + reason }
  function MetaBytes(m: Meta): seq<byte> { Le(m.mode) + Le(m.size) + Le(m.time) }
  function StatMsg(m: Meta): seq<byte> { ID_STAT + MetaBytes(m) }
  function DentMsg(e: Entry): seq<byte> { ID_DENT + MetaBytes(e.meta) + Le(|e.name|) + e.name }
  function ListEnd(): seq<byte> { ID_DONE + MetaBytes(Meta(0, 0, 0)) + Le(0) }

  function LastMsg(failed: Option<Reason>): seq<byte> {
    if failed.Some? then FailMsg(failed.value) else DoneMsg(0)
  }

  function DataMsgs(chunks: seq<Chunk64>): seq<byte> {
    if chunks == [] then [] else DataMsg(chunks[0]) + DataMsgs(chunks[1..])
  }

  function DentMsgs(entries: seq<Entry>): seq<byte> {
    if entries == [] then [] else DentMsg(entries[0]) + DentMsgs(entries[1..])
  }

  function Id(q: Request): seq<byte> {
    match q
    case Stat(_) => ID_STAT
    case List(_) => ID_LIST
    case Recv(_) => ID_RECV
    case Send(_, _, _) => ID_SEND
  }

  function Upload(chunks: seq<Chunk64>, stamp: u32): seq<byte> { DataMsgs(chunks) + DoneMsg(stamp) }

  /** The part of a request the handler itself reads: the data of a SEND. */
  function Body(q: Request): seq<byte> {
    if q.Send? then Upload(q.chunks, q.stamp) else []
  }

  function RequestBytes(q: Request): seq<byte> { Id(q) + Le(|q.name|) + q.name + Body(q) }

  function AnswerBytes(a: Answer): seq<byte> {
    match a
    case StatAnswer(meta) => StatMsg(meta)
    case ListAnswer(entries) => DentMsgs(entries) + ListEnd()
    case RecvAnswer(chunks, failed) => DataMsgs(chunks) + LastMsg(failed)
    case SendAnswer(failed) => if failed.Some? then FailMsg(failed.value) else OkayMsg()
  }

  function RequestsBytes(qs: seq<Request>): seq<byte> {
    if qs == [] then [] else RequestBytes(qs[0]) + RequestsBytes(qs[1..])
  }

  function AnswersBytes(xs: seq<Answer>): seq<byte> {
    if xs == [] then [] else AnswerBytes(xs[0]) + AnswersBytes(xs[1..])
  }

  /** The messages of a transfer: four letters, a number, and the bytes that the number counts. */
  lemma MessageLayout(d: Chunk64, stamp: u32, reason: Reason)
    ensures DataMsg(d)[..4] == Text("DATA") && DataMsg(d)[4..8] == Le(|d|) && DataMsg(d)[8..] == d
    ensures FailMsg(reason)[..4] == Text("FAIL") && FailMsg(reason)[4..8] == Le(|reason|) && FailMsg(reason)[8..] == reason
    ensures DoneMsg(stamp)[..4] == Text("DONE") && DoneMsg(stamp)[4..] == Le(stamp)
    ensures OkayMsg()[..4] == Text("OKAY") && OkayMsg()[4..] == Le(0)
  {
    IdsAreText();
  }

  /** Where the numbers of a status record and of a directory record stand. */
  lemma RecordLayout(m: Meta, e: Entry)
    ensures var s := StatMsg(m);
      |s| == 16 && s[..4] == ID_STAT && s[4..8] == Le(m.mode) && s[8..12] == Le(m.size) && s[12..16] == Le(m.time)
    ensures var d := DentMsg(e);
      && |d| == 20 + |e.name| && d[..4] == ID_DENT && d[4..8] == Le(e.meta.mode) && d[8..12] == Le(e.meta.size)
      && d[12..16] == Le(e.meta.time) && d[16..20] == Le(|e.name|) && d[20..] == e.name
  {
  }

  lemma ZeroBytes()
    ensures Le(0) == [0, 0, 0, 0]
  {
    LeWeights(0, 0, 0, 0);
    FromLeRoundTrip([0, 0, 0, 0]);
  }

  /** The record that ends a listing is DONE and sixteen zero bytes. */
  lemma ListEndLayout()
    ensures |ListEnd()| == 20 && ListEnd()[..4] == Text("DONE") && forall i :: 4 <= i < 20 ==> ListEnd()[i] == 0
  {
    IdsAreText();
    ZeroBytes();
  }

  // ---- the client's parser ----

  /** A message of an identifier, a length and that many bytes. */
  function ParseSized(s: seq<byte>): (r: Option<(seq<byte>, seq<byte>)>)
    ensures r.Some? ==> |r.value.1| < |s| && |r.value.0| < 0x1_0000_0000
  {
    if |s| < 8 then None
    else
      var len := FromLe(s[4..8]);
      if |s| < 8 + len then None else Some((s[8..8 + len], s[8 + len..]))
  }

  function ParseMeta(s: seq<byte>): Meta
    requires |s| >= 16
  {
    Meta(FromLe(s[4..8]), FromLe(s[8..12]), FromLe(s[12..16]))
  }

  function ParseStatus(s: seq<byte>): Option<(Answer, seq<byte>)> {
    if |s| < 8 then None
    else if s[..4] == ID_OKAY then Some((SendAnswer(None), s[8..]))
    else if s[..4] != ID_FAIL then None
    else
      var p := ParseSized(s);
      if p.None? then None else Some((SendAnswer(Some(p.value.0)), p.value.1))
  }

  function ParseData(s: seq<byte>): Option<(Answer, seq<byte>)>
    decreases |s|
  {
    if |s| < 8 then None
    else if s[..4] == ID_DONE then Some((RecvAnswer([], None), s[8..]))
    else
      var p := ParseSized(s);
      if p.None? then None
      else if s[..4] == ID_FAIL then Some((RecvAnswer([], Some(p.value.0)), p.value.1))
      else if s[..4] != ID_DATA || |p.value.0| > SYNC_DATA_MAX then None
      else
        var more := ParseData(p.value.1);
        if more.None? || !more.value.0.RecvAnswer? then None
        else Some((RecvAnswer([p.value.0] + more.value.0.chunks, more.value.0.failed), more.value.1))
  }

  function ParseDents(s: seq<byte>): Option<(Answer, seq<byte>)>
    decreases |s|
  {
    if |s| < 20 then None
    else if s[..4] == ID_DONE then Some((ListAnswer([]), s[20..]))
    else
      var len := FromLe(s[16..20]);
      if s[..4] != ID_DENT || len >= 256 || |s| < 20 + len then None
      else
        var more := ParseDents(s[20 + len..]);
        if more.None? || !more.value.0.ListAnswer? then None
        else Some((ListAnswer([Entry(ParseMeta(s), s[20..20 + len])] + more.value.0.entries), more.value.1))
  }

  /** The answer to `q` at the front of the reply stream, and what follows it. */
  function ParseAnswer(q: Request, s: seq<byte>): Option<(Answer, seq<byte>)> {
    match q
    case Stat(_) =>
      if |s| >= 16 && s[..4] == ID_STAT then Some((StatAnswer(ParseMeta(s)), s[16..])) else None
    case List(_) => ParseDents(s)
    case Recv(_) => ParseData(s)
    case Send(_, _, _) => ParseStatus(s)
  }

  function ParseAnswers(qs: seq<Request>, s: seq<byte>): Option<(seq<Answer>, seq<byte>)> {
    if qs == [] then Some(([], s))
    else
      var p := ParseAnswer(qs[0], s);
      if p.None? then None
      else
        var more := ParseAnswers(qs[1..], p.value.1);
        if more.None? then None else Some(([p.value.0] + more.value.0, more.value.1))
  }

  // ---- answers are read back ----

  /** Any message of the form identifier, length, payload. */
  lemma SizedParses(id: seq<byte>, d: seq<byte>, rest: seq<byte>)
    requires |id| == 4 && |d| < 0x1_0000_0000
    ensures var s := (id + Le(|d|) + d) + rest;
      |s| >= 8 && s[..4] == id && ParseSized(s) == Some((d, rest))
  {
    var s := (id + Le(|d|) + d) + rest;
    assert s[4..8] == Le(|d|);
    LeRoundTrip(|d|);
    assert s[8..8 + |d|] == d && s[8 + |d|..] == rest;
  }

  lemma HeadParses(id: seq<byte>, v: u32, rest: seq<byte>)
    requires |id| == 4
    ensures var s := (id + Le(v)) + rest;
      |s| >= 8 && s[..4] == id && FromLe(s[4..8]) == v && s[8..] == rest
  {
    var s := (id + Le(v)) + rest;
    assert s[4..8] == Le(v);
    LeRoundTrip(v);
  }

  lemma MetaParses(id: seq<byte>, m: Meta, rest: seq<byte>)
    requires |id| == 4
    ensures var s := (id + MetaBytes(m)) + rest;
      |s| >= 16 && s[..4] == id && ParseMeta(s) == m && s[16..] == rest
  {
    var s := (id + MetaBytes(m)) + rest;
    assert s[4..8] == Le(m.mode) && s[8..12] == Le(m.size) && s[12..16] == Le(m.time);
    LeRoundTrip(m.mode);
    LeRoundTrip(m.size);
    LeRoundTrip(m.time);
  }

  /** Where the four parts of a + b + c + d lie. */
  lemma Parts(a: seq<byte>, b: seq<byte>, c: seq<byte>, d: seq<byte>)
    ensures a + b + c + d == a + (b + c + d)
    ensures (a + b + c + d)[|a|..|a| + |b|] == b
    ensures (a + b + c + d)[|a| + |b|..|a| + |b| + |c|] == c
    ensures (a + b + c + d)[|a| + |b| + |c|..] == d
  {
  }

  lemma DentParses(id: seq<byte>, e: Entry, rest: seq<byte>)
    requires |id| == 4
    ensures var s := (id + MetaBytes(e.meta) + Le(|e.name|) + e.name) + rest;
      var n := |e.name|;
      && |s| >= 20 + n && s[..4] == id && ParseMeta(s) == e.meta && FromLe(s[16..20]) == n
      && s[20..20 + n] == e.name && s[20 + n..] == rest
  {
    var head, len := id + MetaBytes(e.meta), Le(|e.name|);
    assert |head| == 16;
    Parts(head, len, e.name, rest);
    MetaParses(id, e.meta, len + e.name + rest);
    LeRoundTrip(|e.name|);
  }

  lemma LastParses(failed: Option<Reason>, rest: seq<byte>)
    ensures ParseData(LastMsg(failed) + rest) == Some((RecvAnswer([], failed), rest))
  {
    if failed.Some? { SizedParses(ID_FAIL, failed.value, rest); } else { HeadParses(ID_DONE, 0, rest); }
  }

  lemma DataStep(d: Chunk64, s: seq<byte>, chunks: seq<Chunk64>, failed: Option<Reason>, rest: seq<byte>)
    requires ParseData(s) == Some((RecvAnswer(chunks, failed), rest))
    ensures ParseData(DataMsg(d) + s) == Some((RecvAnswer([d] + chunks, failed), rest))
  {
    SizedParses(ID_DATA, d, s);
  }

  lemma DataMsgsSplit(chunks: seq<Chunk64>, last: seq<byte>, rest: seq<byte>)
    requires chunks != []
    ensures DataMsgs(chunks) + last + rest == DataMsg(chunks[0]) + (DataMsgs(chunks[1..]) + last + rest)
    ensures [chunks[0]] + chunks[1..] == chunks
  {
    Parts(DataMsg(chunks[0]), DataMsgs(chunks[1..]), last, rest);
  }

  lemma {:induction false} DataParses(chunks: seq<Chunk64>, failed: Option<Reason>, rest: seq<byte>)
    ensures ParseData(DataMsgs(chunks) + LastMsg(failed) + rest) == Some((RecvAnswer(chunks, failed), rest))
    decreases chunks
  {
    if chunks == [] {
      assert DataMsgs(chunks) + LastMsg(failed) == LastMsg(failed);
      LastParses(failed, rest);
    } else {
      DataParses(chunks[1..], failed, rest);
      DataStep(chunks[0], DataMsgs(chunks[1..]) + LastMsg(failed) + rest, chunks[1..], failed, rest);
      DataMsgsSplit(chunks, LastMsg(failed), rest);
    }
  }

  lemma ListEndParses(rest: seq<byte>)
    ensures ParseDents(ListEnd() + rest) == Some((ListAnswer([]), rest))
  {
    var end := Entry(Meta(0, 0, 0), []);
    DentParses(ID_DONE, end, rest);
    assert ListEnd() + end.name == ListEnd();
  }

  lemma DentStep(e: Entry, s: seq<byte>, entries: seq<Entry>, rest: seq<byte>)
    requires ParseDents(s) == Some((ListAnswer(entries), rest))
    ensures ParseDents(DentMsg(e) + s) == Some((ListAnswer([e] + entries), rest))
  {
    DentParses(ID_DENT, e, s);
  }

  lemma {:induction false} DentsParse(entries: seq<Entry>, rest: seq<byte>)
    ensures ParseDents(DentMsgs(entries) + ListEnd() + rest) == Some((ListAnswer(entries), rest))
  {
    if entries == [] {
      assert DentMsgs(entries) + ListEnd() == ListEnd();
      ListEndParses(rest);
    } else {
      var more := DentMsgs(entries[1..]) + ListEnd() + rest;
      DentsParse(entries[1..], rest);
      DentStep(entries[0], more, entries[1..], rest);
      Parts(DentMsg(entries[0]), DentMsgs(entries[1..]), ListEnd(), rest);
      assert [entries[0]] + entries[1..] == entries;
    }
  }

  /** An answer is read back whatever follows it, so no answer can be taken for another. */
  lemma AnswerParses(q: Request, a: Answer, rest: seq<byte>)
    requires Answers(q, a)
    ensures ParseAnswer(q, AnswerBytes(a) + rest) == Some((a, rest))
  {
    match a
    case StatAnswer(meta) => MetaParses(ID_STAT, meta, rest);
    case ListAnswer(entries) => DentsParse(entries, rest);
    case RecvAnswer(chunks, failed) => DataParses(chunks, failed, rest);
    case SendAnswer(failed) =>
      if failed.Some? { SizedParses(ID_FAIL, failed.value, rest); } else { HeadParses(ID_OKAY, 0, rest); }
  }

  lemma {:induction false} AnswersParse(qs: seq<Request>, xs: seq<Answer>, rest: seq<byte>)
    requires |qs| == |xs| && forall i :: 0 <= i < |qs| ==> Answers(qs[i], xs[i])
    ensures ParseAnswers(qs, AnswersBytes(xs) + rest) == Some((xs, rest))
  {
    if qs == [] {
      assert AnswersBytes(xs) + rest == rest;
    } else {
      var more := AnswersBytes(xs[1..]) + rest;
      AnswerParses(qs[0], xs[0], more);
      AnswersParse(qs[1..], xs[1..], rest);
      Regroup(AnswerBytes(xs[0]), AnswersBytes(xs[1..]), rest);
      assert [xs[0]] + xs[1..] == xs;
    }
  }
}
