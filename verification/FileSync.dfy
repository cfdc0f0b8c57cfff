/**
 * The file-sync session (adbd/src/file_sync_service.c) as functions of its input stream.
 * The reply pipe works; every file operation succeeds or fails as the environment decides.
 * The main result: on well-formed requests the byte-level session is the abstract file
 * server `Serve`, one answer per request, whatever fails.
 */
module FileSync {
  import opened Common
  import opened Framing
  import opened SyncWire

  /** The regular files, by path. */
  type Fs = map<seq<byte>, seq<byte>>

  datatype WriteResult = Wrote | Torn(n: nat)
  datatype ReadResult = Got(n: nat) | ReadFailed
  datatype DirEntry = DirEntry(name: seq<byte>, meta: Option<Meta>)

  /** What the system calls of one request do; err is the text of the errno of the failing one. */
  datatype Env = Env(
    unlinks: bool, opens: bool, cleans: bool, err: Reason,
    writing: nat -> WriteResult, reading: nat -> ReadResult,
    meta: Option<Meta>, dir: Option<seq<DirEntry>>)

  /** Unread input, bytes sent, files. */
  datatype Io = Io(inp: seq<byte>, out: seq<byte>, fs: Fs)

  function Say(io: Io, msg: seq<byte>): Io { io.(out := io.out + msg) }

  const INVALID_DATA: Reason := Text("invalid data message")
  const OVERSIZE_DATA: Reason := Text("oversize data message")
  const COMMAND_READ: Reason := Text("command read failure")
  const INVALID_NAMELEN: Reason := Text("invalid namelen")
  const NAME_READ: Reason := Text("filename read failure")
  const UNKNOWN_COMMAND: Reason := Text("unknown command")

  // ---- paths and files ----

  /** The bytes before the first NUL. */
  function CString(n: seq<byte>): seq<byte> {
    if n == [] || n[0] == 0 then [] else [n[0]] + CString(n[1..])
  }

  function LastComma(p: seq<byte>): (r: Option<nat>)
    ensures r.Some? ==> r.value < |p| && p[r.value] == 44 && forall i :: r.value < i < |p| ==> p[i] != 44
    ensures r.None? <==> 44 !in p
  {
    if p == [] then None
    else if p[|p| - 1] == 44 then Some(|p| - 1)
    else
      assert p == p[..|p| - 1] + [p[|p| - 1]];
      LastComma(p[..|p| - 1])
  }

  /** do_send cuts the path at its last comma; what follows is the mode. */
  function SendPath(n: seq<byte>): seq<byte> {
    var p := CString(n);
    var c := LastComma(p);
    if c.None? then p else p[..c.value]
  }

  // ---- which file a request names, told from its bytes ----

  /** The end of a name that the handler sees: nothing, or a NUL and what follows it. */
  predicate Ends0(tail: seq<byte>) { tail == [] || tail[0] == 0 }

  predicate Names(n: seq<byte>, p: seq<byte>, tail: seq<byte>) {
    n == p + tail && 0 !in p && Ends0(tail)
  }

  predicate NamesMode(n: seq<byte>, p: seq<byte>, m: seq<byte>, tail: seq<byte>) {
    n == p + [44] + m + tail && 0 !in p && 0 !in m && 44 !in m && Ends0(tail)
  }

  /** The request name n names the file p: p has no NUL, and n is p up to its first NUL. */
  ghost predicate NamesFile(n: seq<byte>, p: seq<byte>) { exists tail :: Names(n, p, tail) }

  /** The SEND name n targets p: n is "p,mode", where the mode has no comma, or p without any comma. */
  ghost predicate Targets(n: seq<byte>, p: seq<byte>) {
    || (44 !in p && NamesFile(n, p))
    || (exists m, tail :: NamesMode(n, p, m, tail))
  }

  lemma {:induction false} CStringIs(p: seq<byte>, tail: seq<byte>)
    requires 0 !in p && Ends0(tail)
    ensures CString(p + tail) == p
  {
    if p == [] {
      assert p + tail == tail;
    } else {
      assert (p + tail)[1..] == p[1..] + tail;
      CStringIs(p[1..], tail);
      assert [p[0]] + p[1..] == p;
    }
  }

  lemma {:induction false} CStringSplits(n: seq<byte>)
    ensures CString(n) <= n && 0 !in CString(n) && Ends0(n[|CString(n)|..])
  {
    if n != [] && n[0] != 0 {
      CStringSplits(n[1..]);
      var c := CString(n[1..]);
      assert n[|c| + 1..] == n[1..][|c|..];
    }
  }

  /** CString finds exactly the file that a name names. */
  lemma NamesFileIsExact(n: seq<byte>, p: seq<byte>)
    ensures NamesFile(n, p) <==> p == CString(n)
  {
    if NamesFile(n, p) {
      var tail :| Names(n, p, tail);
      CStringIs(p, tail);
    }
    if p == CString(n) {
      CStringSplits(n);
      assert Names(n, p, n[|p|..]);
    }
  }

  lemma LastCommaIs(n: seq<byte>, i: nat)
    requires i < |n| && n[i] == 44 && forall j :: i < j < |n| ==> n[j] != 44
    ensures LastComma(n) == Some(i)
  {
  }

  lemma CutsAtLastComma(p: seq<byte>, m: seq<byte>)
    requires 44 !in m
    ensures LastComma(p + [44] + m) == Some(|p|)
  {
    var n := p + [44] + m;
    assert n[|p|] == 44;
    assert forall j :: |p| < j < |n| ==> n[j] == m[j - |p| - 1];
    LastCommaIs(n, |p|);
  }

  lemma CutAt(c: seq<byte>, i: nat)
    requires i < |c| && c[i] == 44
    ensures c == c[..i] + [44] + c[i + 1..]
  {
  }

  lemma TargetsSendPath(n: seq<byte>)
    ensures Targets(n, SendPath(n))
  {
    var c := CString(n);
    CStringSplits(n);
    var tail := n[|c|..];
    assert n == c + tail;
    if LastComma(c).Some? {
      var i := LastComma(c).value;
      CutAt(c, i);
      assert NamesMode(n, c[..i], c[i + 1..], tail);
    } else {
      assert Names(n, c, tail);
    }
  }

  /** SendPath finds exactly the file that a SEND targets, whatever commas its path contains. */
  lemma TargetsIsExact(n: seq<byte>, p: seq<byte>)
    ensures Targets(n, p) <==> p == SendPath(n)
  {
    TargetsSendPath(n);
    if Targets(n, p) {
      if m, tail :| NamesMode(n, p, m, tail) {
        CStringIs(p + [44] + m, tail);
        CutsAtLastComma(p, m);
        assert (p + [44] + m)[..|p|] == p;
      } else {
        NamesFileIsExact(n, p);
      }
    }
  }

  function Unlinked(fs: Fs, p: seq<byte>, works: bool): Fs { if works then fs - {p} else fs }

  function WriteAt(content: seq<byte>, pos: nat, d: seq<byte>): (r: seq<byte>)
    requires pos <= |content|
    ensures pos + |d| <= |r|
  {
    content[..pos] + d + (if pos + |d| <= |content| then content[pos + |d|..] else [])
  }

  function Contents(fs: Fs, p: seq<byte>): seq<byte> { if p in fs then fs[p] else [] }

  // ---- SEND ----

  ghost predicate FdOk(fs: Fs, path: seq<byte>, fd: Option<nat>) {
    fd.Some? ==> path in fs && fd.value <= |fs[path]|
  }

  /** A loop goes on, with the file still open or not, or is over with handle_send_file's verdict. */
  datatype Next = Go(io: Io, fd: Option<nat>) | Stop(io: Io, ok: bool)

  /** The label `fail`: the file is removed and the session is over. */
  function Abandon(io: Io, path: seq<byte>, env: Env): Next {
    Stop(io.(fs := Unlinked(io.fs, path, env.cleans)), false)
  }

  /** The file operations for one data message: the position moves on, or the transfer fails. */
  function StoreChunk(io: Io, path: seq<byte>, pos: nat, d: Chunk64, env: Env, k: nat): (r: (Io, Option<nat>))
    requires FdOk(io.fs, path, Some(pos))
    ensures FdOk(r.0.fs, path, r.1) && r.0.inp == io.inp
  {
    var before := io.fs[path];
    if d == [] || env.writing(k).Wrote? then
      (io.(fs := io.fs[path := WriteAt(before, pos, d)]), Some(pos + |d|))
    else
      var part := d[..Min(env.writing(k).n, |d|)];
      var fs := io.fs[path := WriteAt(before, pos, part)];
      (Say(io.(fs := Unlinked(fs, path, env.cleans)), FailMsg(env.err)), None)
  }

  /** One round of the loop: `fd` is the write position, or None once the transfer has failed. */
  function SendRound(io: Io, path: seq<byte>, fd: Option<nat>, env: Env, k: nat): (r: Next)
    requires FdOk(io.fs, path, fd)
    ensures |r.io.inp| <= |io.inp|
    ensures r.Go? ==> FdOk(r.io.fs, path, r.fd) && |r.io.inp| < |io.inp|
  {
    var inp := io.inp;
    if |inp| < 8 then Abandon(io.(inp := []), path, env)
    else
      var id, len, io1 := inp[..4], FromLe(inp[4..8]), io.(inp := inp[8..]);
      if id == ID_DONE then Stop(if fd.Some? then Say(io1, OkayMsg()) else io1, true)
      else if id != ID_DATA then Abandon(Say(io1, FailMsg(INVALID_DATA)), path, env)
      else if len > SYNC_DATA_MAX then Abandon(Say(io1, FailMsg(OVERSIZE_DATA)), path, env)
      else if |io1.inp| < len then Abandon(io.(inp := []), path, env)
      else
        var d, io2 := io1.inp[..len], io1.(inp := io1.inp[len..]);
        if fd.None? then Go(io2, None)
        else
          var s := StoreChunk(io2, path, fd.value, d, env, k);
          Go(s.0, s.1)
  }

  /** The loop of handle_send_file. */
  function SendLoop(io: Io, path: seq<byte>, fd: Option<nat>, env: Env, k: nat): (r: (Io, bool))
    requires FdOk(io.fs, path, fd)
    ensures |r.0.inp| <= |io.inp|
    decreases |io.inp|
  {
    match SendRound(io, path, fd, env, k)
    case Go(io1, fd1) => SendLoop(io1, path, fd1, env, k + 1)
    case Stop(io1, ok) => (io1, ok)
  }

  /** Opening: a new empty file, or the one the unlink left, without truncation. */
  function SendOpen(io: Io, path: seq<byte>, env: Env): (r: (Io, Option<nat>))
    ensures FdOk(r.0.fs, path, r.1) && r.0.inp == io.inp
  {
    if env.opens then (io.(fs := io.fs[path := Contents(io.fs, path)]), Some(0))
    else (Say(io, FailMsg(env.err)), None)
  }

  function DoSend(io: Io, name: seq<byte>, env: Env): (r: (Io, bool))
    ensures |r.0.inp| <= |io.inp|
  {
    var path := SendPath(name);
    var s := SendOpen(io.(fs := Unlinked(io.fs, path, env.unlinks)), path, env);
    SendLoop(s.0, path, s.1, env, 0)
  }

  // ---- RECV, LIST, STAT ----

  /** How much one read gives: at most the buffer, at least a byte unless at end of file. */
  function Taken(n: nat, left: seq<byte>): (r: nat)
    ensures r <= |left| && r <= SYNC_DATA_MAX && (r == 0 <==> left == [])
  {
    if left == [] then 0 else Min(Min(n + 1, SYNC_DATA_MAX), |left|)
  }

  function RecvLoop(io: Io, left: seq<byte>, env: Env, k: nat): (r: Io)
    ensures r.inp == io.inp
    decreases |left|
  {
    if env.reading(k).ReadFailed? then Say(io, FailMsg(env.err))
    else
      var n := Taken(env.reading(k).n, left);
      if n == 0 then Say(io, DoneMsg(0))
      else RecvLoop(Say(io, DataMsg(left[..n])), left[n..], env, k + 1)
  }

  function DoRecv(io: Io, name: seq<byte>, env: Env): (r: Io)
    ensures r.inp == io.inp
  {
    var path := CString(name);
    if !env.opens || path !in io.fs then Say(io, FailMsg(env.err)) else RecvLoop(io, io.fs[path], env, 0)
  }

  /** What do_list says of one directory entry: nothing for a long name or a failing lstat. */
  function ListOne(io: Io, e: DirEntry): (r: Io)
    ensures r.inp == io.inp
  {
    if |e.name| >= 256 || e.meta.None? then io else Say(io, DentMsg(Entry(e.meta.value, e.name)))
  }

  function ListLoop(io: Io, dir: seq<DirEntry>): (r: Io)
    ensures r.inp == io.inp
    decreases |dir|
  {
    if dir == [] then Say(io, ListEnd()) else ListLoop(ListOne(io, dir[0]), dir[1..])
  }

  function DoList(io: Io, env: Env): (r: Io)
    ensures r.inp == io.inp
  {
    ListLoop(io, if env.dir.Some? then env.dir.value else [])
  }

  function DoStat(io: Io, env: Env): Io {
    Say(io, StatMsg(if env.meta.Some? then env.meta.value else Meta(0, 0, 0)))
  }

  // ---- the session ----

  /** One request already read: its effect, and whether the session goes on. */
  function Dispatch(io: Io, id: seq<byte>, name: Name, env: Env): (r: (Io, bool))
    ensures |r.0.inp| <= |io.inp|
  {
    if id == ID_STAT then (DoStat(io, env), true)
    else if id == ID_LIST then (DoList(io, env), true)
    else if id == ID_SEND then DoSend(io, name, env)
    else if id == ID_RECV then (DoRecv(io, name, env), true)
    else if id == ID_QUIT then (io, false)
    else (Say(io, FailMsg(UNKNOWN_COMMAND)), false)
  }

  /** One round of the session's loop. */
  function Round(io: Io, env: Env): (r: (Io, bool))
    ensures r.1 ==> |r.0.inp| < |io.inp|
  {
    var inp := io.inp;
    if |inp| < 8 then (Say(io.(inp := []), FailMsg(COMMAND_READ)), false)
    else
      var id, len, io1 := inp[..4], FromLe(inp[4..8]), io.(inp := inp[8..]);
      if len > 1024 then (Say(io1, FailMsg(INVALID_NAMELEN)), false)
      else if |io1.inp| < len then (Say(io.(inp := []), FailMsg(NAME_READ)), false)
      else Dispatch(io1.(inp := io1.inp[len..]), id, io1.inp[..len], env)
  }

  /** file_sync_service: `envs(k)` is what the world does during the k-th request. */
  function Session(io: Io, envs: nat -> Env, k: nat): Io
    decreases |io.inp|
  {
    var r := Round(io, envs(k));
    if r.1 then Session(r.0, envs, k + 1) else r.0
  }

  // ---- the file server it implements ----

  predicate ChunkFails(chunks: seq<Chunk64>, env: Env, i: nat)
    requires i < |chunks|
  {
    chunks[i] != [] && env.writing(i).Torn?
  }

  /** How many data messages are stored before the first failing write. */
  function Stored(chunks: seq<Chunk64>, env: Env, i: nat): (r: nat)
    requires i <= |chunks|
    ensures i <= r <= |chunks|
    ensures forall j :: i <= j < r ==> !ChunkFails(chunks, env, j)
    ensures r < |chunks| ==> ChunkFails(chunks, env, r)
    decreases |chunks| - i
  {
    if i == |chunks| || ChunkFails(chunks, env, i) then i else Stored(chunks, env, i + 1)
  }

  /** The new bytes over the old ones: the tail of a longer old file stays. */
  function Over(before: seq<byte>, d: seq<byte>): seq<byte> { WriteAt(before, 0, d) }

  /** Answer and files when the first n data messages were stored in the file opened over fs. */
  function SendOutcome(path: seq<byte>, chunks: seq<Chunk64>, fs: Fs, env: Env, n: nat): (Answer, Fs)
    requires n <= |chunks|
    requires n < |chunks| ==> ChunkFails(chunks, env, n)
  {
    var before := Contents(fs, path);
    if n == |chunks| then (SendAnswer(None), fs[path := Over(before, Flat(chunks))])
    else
      var part := chunks[n][..Min(env.writing(n).n, |chunks[n]|)];
      (SendAnswer(Some(env.err)), Unlinked(fs[path := Over(before, Flat(chunks[..n]) + part)], path, env.cleans))
  }

  function ServeSend(path: seq<byte>, chunks: seq<Chunk64>, fs: Fs, env: Env): (Answer, Fs) {
    var fs1 := Unlinked(fs, path, env.unlinks);
    if env.opens then SendOutcome(path, chunks, fs1, env, Stored(chunks, env, 0))
    else (SendAnswer(Some(env.err)), fs1)
  }

  function ReadChunks(left: seq<byte>, env: Env, k: nat): (r: (seq<Chunk64>, bool))
    ensures r.1 ==> Flat(r.0) == left
    ensures Flat(r.0) <= left
    ensures forall c :: c in r.0 ==> c != []
    decreases |left|
  {
    if env.reading(k).ReadFailed? then ([], false)
    else
      var n := Taken(env.reading(k).n, left);
      if n == 0 then ([], true)
      else
        var more := ReadChunks(left[n..], env, k + 1);
        assert left == left[..n] + left[n..];
        ([left[..n]] + more.0, more.1)
  }

  function ServeRecv(path: seq<byte>, fs: Fs, env: Env): Answer {
    if !env.opens || path !in fs then RecvAnswer([], Some(env.err))
    else
      var r := ReadChunks(fs[path], env, 0);
      RecvAnswer(r.0, if r.1 then None else Some(env.err))
  }

  function Listed(dir: seq<DirEntry>): seq<Entry> {
    if dir == [] then []
    else if |dir[0].name| >= 256 || dir[0].meta.None? then Listed(dir[1..])
    else [Entry(dir[0].meta.value, dir[0].name)] + Listed(dir[1..])
  }

  /** What a request means, with no bytes in sight. */
  function Serve(q: Request, fs: Fs, env: Env): (r: (Answer, Fs))
    ensures Answers(q, r.0)
  {
    match q
    case Stat(_) => (StatAnswer(if env.meta.Some? then env.meta.value else Meta(0, 0, 0)), fs)
    case List(_) => (ListAnswer(if env.dir.Some? then Listed(env.dir.value) else []), fs)
    case Recv(name) => (ServeRecv(CString(name), fs, env), fs)
    case Send(name, chunks, _) => ServeSend(SendPath(name), chunks, fs, env)
  }

  function ServeAll(qs: seq<Request>, fs: Fs, envs: nat -> Env, k: nat): (r: (seq<Answer>, Fs))
    ensures |r.0| == |qs| && forall i :: 0 <= i < |qs| ==> Answers(qs[i], r.0[i])
  {
    if qs == [] then ([], fs)
    else
      var s := Serve(qs[0], fs, envs(k));
      var more := ServeAll(qs[1..], s.1, envs, k + 1);
      ([s.0] + more.0, more.1)
  }

  // ---- one SEND ----

  lemma SizedSplits(id: seq<byte>, d: seq<byte>, rest: seq<byte>)
    requires |id| == 4 && |d| < 0x1_0000_0000
    ensures var s := (id + Le(|d|) + d) + rest;
      && |s| >= 8 + |d| && s[..4] == id && FromLe(s[4..8]) == |d|
      && s[8..][..|d|] == d && s[8..][|d|..] == rest
  {
    var s := (id + Le(|d|) + d) + rest;
    assert s == (id + Le(|d|)) + (d + rest);
    HeadParses(id, |d|, d + rest);
  }

  lemma WriteTwice(c: seq<byte>, pos: nat, a: seq<byte>, b: seq<byte>)
    requires pos <= |c|
    ensures WriteAt(WriteAt(c, pos, a), pos + |a|, b) == WriteAt(c, pos, a + b)
  {
    var m := WriteAt(c, pos, a);
    assert m[..pos + |a|] == c[..pos] + a;
    if pos + |a| + |b| <= |c| {
      assert m[pos + |a|..] == c[pos + |a|..];
      assert m[pos + |a| + |b|..] == c[pos + |a| + |b|..];
    }
  }

  lemma FlatTake(chunks: seq<Chunk64>, k: nat)
    requires k < |chunks|
    ensures Flat(chunks[..k + 1]) == Flat(chunks[..k]) + chunks[k]
  {
    assert chunks[..k + 1] == chunks[..k] + [chunks[k]];
    FlatAppend(chunks[..k], [chunks[k]]);
    FlatOne(chunks[k]);
  }

  lemma UploadStep(chunks: seq<Chunk64>, k: nat, stamp: u32, rest: seq<byte>)
    requires k < |chunks|
    ensures Upload(chunks[k..], stamp) + rest == DataMsg(chunks[k]) + (Upload(chunks[k + 1..], stamp) + rest)
  {
    assert chunks[k..][1..] == chunks[k + 1..];
    Parts(DataMsg(chunks[k]), DataMsgs(chunks[k + 1..]), DoneMsg(stamp), rest);
  }

  lemma UploadEnd(stamp: u32, rest: seq<byte>)
    ensures var s := Upload([], stamp) + rest;
      |s| >= 8 && s[..4] == ID_DONE && s[8..] == rest
  {
    assert Upload([], stamp) == DoneMsg(stamp);
    HeadParses(ID_DONE, stamp, rest);
  }

  /** After a failure the rest of the transfer is read and dropped, with no further reply. */
  lemma {:induction false} SkipsToDone(chunks: seq<Chunk64>, k: nat, stamp: u32, rest: seq<byte>, io: Io,
                                       path: seq<byte>, env: Env)
    requires k <= |chunks| && io.inp == Upload(chunks[k..], stamp) + rest
    ensures SendLoop(io, path, None, env, k) == (io.(inp := rest), true)
    decreases |chunks| - k
  {
    if k == |chunks| {
      UploadEnd(stamp, rest);
    } else {
      var more := Upload(chunks[k + 1..], stamp) + rest;
      UploadStep(chunks, k, stamp, rest);
      SizedSplits(ID_DATA, chunks[k], more);
      SkipsToDone(chunks, k + 1, stamp, rest, io.(inp := more), path, env);
    }
  }

  /** The state of a transfer of which the first k data messages are stored. */
  function Midway(chunks: seq<Chunk64>, k: nat, inp: seq<byte>, out: seq<byte>, fs: Fs, path: seq<byte>): Io
    requires k <= |chunks|
  {
    Io(inp, out, fs[path := Over(Contents(fs, path), Flat(chunks[..k]))])
  }

  /** The state after the round that meets data message k. */
  function AfterChunk(chunks: seq<Chunk64>, k: nat, inp: seq<byte>, out: seq<byte>, fs: Fs, path: seq<byte>,
                      env: Env): (r: (Io, Option<nat>))
    requires k < |chunks|
    ensures FdOk(r.0.fs, path, r.1)
  {
    if ChunkFails(chunks, env, k) then
      (Io(inp, out + FailMsg(env.err), SendOutcome(path, chunks, fs, env, k).1), None)
    else (Midway(chunks, k + 1, inp, out, fs, path), Some(|Flat(chunks[..k + 1])|))
  }

  /** Storing message k leads to the state with one more stored, or to the outcome that stops there. */
  lemma StoresOne(chunks: seq<Chunk64>, k: nat, inp: seq<byte>, out: seq<byte>, fs: Fs, path: seq<byte>, env: Env)
    requires k < |chunks|
    ensures var pos := |Flat(chunks[..k])|;
      StoreChunk(Midway(chunks, k, inp, out, fs, path), path, pos, chunks[k], env, k)
        == AfterChunk(chunks, k, inp, out, fs, path, env)
  {
    var done, before := Flat(chunks[..k]), Contents(fs, path);
    FlatTake(chunks, k);
    var part := if ChunkFails(chunks, env, k) then chunks[k][..Min(env.writing(k).n, |chunks[k]|)] else chunks[k];
    WriteTwice(before, 0, done, part);
    assert fs[path := Over(before, done)][path := Over(before, done + part)] == fs[path := Over(before, done + part)];
  }

  /** A round that meets data message k. */
  lemma RoundStores(chunks: seq<Chunk64>, k: nat, more: seq<byte>, io: Io, path: seq<byte>, pos: nat, env: Env)
    requires k < |chunks| && FdOk(io.fs, path, Some(pos)) && io.inp == DataMsg(chunks[k]) + more
    ensures var s := StoreChunk(io.(inp := more), path, pos, chunks[k], env, k);
      SendRound(io, path, Some(pos), env, k) == Go(s.0, s.1)
  {
    SizedSplits(ID_DATA, chunks[k], more);
  }

  lemma SendLoopStep(chunks: seq<Chunk64>, k: nat, stamp: u32, rest: seq<byte>, out: seq<byte>,
                     fs: Fs, path: seq<byte>, env: Env)
    requires k < |chunks|
    ensures var inp, more := Upload(chunks[k..], stamp) + rest, Upload(chunks[k + 1..], stamp) + rest;
      var s := AfterChunk(chunks, k, more, out, fs, path, env);
      SendLoop(Midway(chunks, k, inp, out, fs, path), path, Some(|Flat(chunks[..k])|), env, k)
        == SendLoop(s.0, path, s.1, env, k + 1)
  {
    var inp, more := Upload(chunks[k..], stamp) + rest, Upload(chunks[k + 1..], stamp) + rest;
    UploadStep(chunks, k, stamp, rest);
    RoundStores(chunks, k, more, Midway(chunks, k, inp, out, fs, path), path, |Flat(chunks[..k])|, env);
    StoresOne(chunks, k, more, out, fs, path, env);
  }

  /** From the state with k messages stored, the transfer ends as one whose first n are stored. */
  ghost predicate Ends(chunks: seq<Chunk64>, k: nat, n: nat, stamp: u32, rest: seq<byte>, out: seq<byte>,
                       fs: Fs, path: seq<byte>, env: Env)
    requires k <= n <= |chunks| && (n < |chunks| ==> ChunkFails(chunks, env, n))
  {
    var r := SendOutcome(path, chunks, fs, env, n);
    SendLoop(Midway(chunks, k, Upload(chunks[k..], stamp) + rest, out, fs, path), path,
             Some(|Flat(chunks[..k])|), env, k)
      == (Io(rest, out + AnswerBytes(r.0), r.1), true)
  }

  lemma EndsStored(chunks: seq<Chunk64>, stamp: u32, rest: seq<byte>, out: seq<byte>, fs: Fs, path: seq<byte>, env: Env)
    ensures Ends(chunks, |chunks|, |chunks|, stamp, rest, out, fs, path, env)
  {
    UploadEnd(stamp, rest);
    assert chunks[..|chunks|] == chunks;
  }

  lemma EndsFailed(chunks: seq<Chunk64>, k: nat, stamp: u32, rest: seq<byte>, out: seq<byte>,
                   fs: Fs, path: seq<byte>, env: Env)
    requires k < |chunks| && ChunkFails(chunks, env, k)
    ensures Ends(chunks, k, k, stamp, rest, out, fs, path, env)
  {
    SendLoopStep(chunks, k, stamp, rest, out, fs, path, env);
    var s := AfterChunk(chunks, k, Upload(chunks[k + 1..], stamp) + rest, out, fs, path, env);
    SkipsToDone(chunks, k + 1, stamp, rest, s.0, path, env);
  }

  lemma EndsEarlier(chunks: seq<Chunk64>, k: nat, n: nat, stamp: u32, rest: seq<byte>, out: seq<byte>,
                    fs: Fs, path: seq<byte>, env: Env)
    requires k < n <= |chunks| && !ChunkFails(chunks, env, k) && (n < |chunks| ==> ChunkFails(chunks, env, n))
    requires Ends(chunks, k + 1, n, stamp, rest, out, fs, path, env)
    ensures Ends(chunks, k, n, stamp, rest, out, fs, path, env)
  {
    SendLoopStep(chunks, k, stamp, rest, out, fs, path, env);
  }

  lemma {:induction false} SendLoopServes(chunks: seq<Chunk64>, k: nat, stamp: u32, rest: seq<byte>, out: seq<byte>,
                                          fs: Fs, path: seq<byte>, env: Env)
    requires k <= |chunks|
    ensures Ends(chunks, k, Stored(chunks, env, k), stamp, rest, out, fs, path, env)
    decreases |chunks| - k
  {
    if k == |chunks| {
      EndsStored(chunks, stamp, rest, out, fs, path, env);
    } else if ChunkFails(chunks, env, k) {
      EndsFailed(chunks, k, stamp, rest, out, fs, path, env);
    } else {
      SendLoopServes(chunks, k + 1, stamp, rest, out, fs, path, env);
      EndsEarlier(chunks, k, Stored(chunks, env, k + 1), stamp, rest, out, fs, path, env);
    }
  }

  lemma FirstMidway(chunks: seq<Chunk64>, inp: seq<byte>, out: seq<byte>, fs: Fs, path: seq<byte>)
    ensures Midway(chunks, 0, inp, out, fs, path) == Io(inp, out, fs[path := Contents(fs, path)])
    ensures |Flat(chunks[..0])| == 0
  {
    assert chunks[..0] == [];
    assert Over(Contents(fs, path), []) == Contents(fs, path);
  }

  /**
   * A SEND consumes its input exactly through DONE and yields exactly one OKAY or FAIL,
   * whichever opens and writes fail.
   */
  lemma SendStaysInFrame(q: Request, rest: seq<byte>, out: seq<byte>, fs: Fs, env: Env)
    requires q.Send?
    ensures var r := Serve(q, fs, env);
      DoSend(Io(Body(q) + rest, out, fs), q.name, env) == (Io(rest, out + AnswerBytes(r.0), r.1), true)
  {
    var path, fs1 := SendPath(q.name), Unlinked(fs, SendPath(q.name), env.unlinks);
    var inp := Body(q) + rest;
    assert q.chunks[0..] == q.chunks && Body(q) == Upload(q.chunks, q.stamp);
    if env.opens {
      FirstMidway(q.chunks, inp, out, fs1, path);
      SendLoopServes(q.chunks, 0, q.stamp, rest, out, fs1, path, env);
    } else {
      SkipsToDone(q.chunks, 0, q.stamp, rest, Io(inp, out + FailMsg(env.err), fs1), path, env);
    }
  }

  // ---- the session ----

  lemma {:induction false} RecvLoopServes(io: Io, left: seq<byte>, env: Env, k: nat)
    ensures var r := ReadChunks(left, env, k);
      RecvLoop(io, left, env, k)
        == Say(io, AnswerBytes(RecvAnswer(r.0, if r.1 then None else Some(env.err))))
    decreases |left|
  {
    var r := ReadChunks(left, env, k);
    var last := LastMsg(if r.1 then None else Some(env.err));
    if r.0 == [] {
      assert DataMsgs(r.0) + last == last;
    } else {
      var n := Taken(env.reading(k).n, left);
      RecvLoopServes(Say(io, DataMsg(left[..n])), left[n..], env, k + 1);
      assert r.0[1..] == ReadChunks(left[n..], env, k + 1).0;
      Regroup(io.out, DataMsg(left[..n]), DataMsgs(r.0[1..]) + last);
      Regroup(DataMsg(left[..n]), DataMsgs(r.0[1..]), last);
    }
  }

  lemma {:induction false} ListLoopServes(io: Io, dir: seq<DirEntry>)
    ensures ListLoop(io, dir) == Say(io, AnswerBytes(ListAnswer(Listed(dir))))
    decreases |dir|
  {
    if dir == [] {
      assert DentMsgs([]) + ListEnd() == ListEnd();
    } else {
      ListLoopServes(ListOne(io, dir[0]), dir[1..]);
      if |dir[0].name| < 256 && dir[0].meta.Some? {
        var e, more := Entry(dir[0].meta.value, dir[0].name), Listed(dir[1..]);
        assert ([e] + more)[1..] == more;
        Regroup(io.out, DentMsg(e), DentMsgs(more) + ListEnd());
        Regroup(DentMsg(e), DentMsgs(more), ListEnd());
      }
    }
  }

  lemma DispatchServes(q: Request, rest: seq<byte>, out: seq<byte>, fs: Fs, env: Env)
    ensures var r := Serve(q, fs, env);
      Dispatch(Io(Body(q) + rest, out, fs), Id(q), q.name, env) == (Io(rest, out + AnswerBytes(r.0), r.1), true)
  {
    if q.Send? {
      SendStaysInFrame(q, rest, out, fs, env);
    } else {
      var io := Io(rest, out, fs);
      assert Body(q) + rest == rest;
      if q.List? { ListLoopServes(io, if env.dir.Some? then env.dir.value else []); }
      if q.Recv? {
        var path := CString(q.name);
        if env.opens && path in fs { RecvLoopServes(io, fs[path], env, 0); } else { NothingRead(env.err); }
      }
    }
  }

  lemma NothingRead(err: Reason)
    ensures AnswerBytes(RecvAnswer([], Some(err))) == FailMsg(err)
  {
    assert DataMsgs([]) + FailMsg(err) == FailMsg(err);
  }

  lemma RequestStep(q: Request, rest: seq<byte>, out: seq<byte>, fs: Fs, envs: nat -> Env, k: nat)
    ensures var r := Serve(q, fs, envs(k));
      Session(Io(RequestBytes(q) + rest, out, fs), envs, k)
        == Session(Io(rest, out + AnswerBytes(r.0), r.1), envs, k + 1)
  {
    var inp := RequestBytes(q) + rest;
    SizedSplits(Id(q), q.name, Body(q) + rest);
    Regroup(Id(q) + Le(|q.name|) + q.name, Body(q), rest);
    DispatchServes(q, rest, out, fs, envs(k));
  }

  /** Where the session stands after the requests, with `rest` still to read. */
  function Served(qs: seq<Request>, rest: seq<byte>, out: seq<byte>, fs: Fs, envs: nat -> Env, k: nat): Io {
    var r := ServeAll(qs, fs, envs, k);
    Io(rest, out + AnswersBytes(r.0), r.1)
  }

  lemma ServedNone(rest: seq<byte>, out: seq<byte>, fs: Fs, envs: nat -> Env, k: nat)
    ensures Served([], rest, out, fs, envs, k) == Io(RequestsBytes([]) + rest, out, fs)
  {
  }

  lemma ServedMore(qs: seq<Request>, rest: seq<byte>, out: seq<byte>, fs: Fs, envs: nat -> Env, k: nat)
    requires qs != []
    ensures var s := Serve(qs[0], fs, envs(k));
      Served(qs, rest, out, fs, envs, k) == Served(qs[1..], rest, out + AnswerBytes(s.0), s.1, envs, k + 1)
  {
    var s, r := Serve(qs[0], fs, envs(k)), ServeAll(qs, fs, envs, k);
    assert r.0[1..] == ServeAll(qs[1..], s.1, envs, k + 1).0;
    Regroup(out, AnswerBytes(s.0), AnswersBytes(r.0[1..]));
  }

  /** `run` carries on after one request as the abstract server says; `Session` does. */
  ghost predicate Follows(run: (Io, nat) -> Io, envs: nat -> Env, q: Request, rest: seq<byte>, out: seq<byte>,
                          fs: Fs, k: nat) {
    var s := Serve(q, fs, envs(k));
    run(Io(RequestBytes(q) + rest, out, fs), k) == run(Io(rest, out + AnswerBytes(s.0), s.1), k + 1)
  }

  lemma FollowsHead(run: (Io, nat) -> Io, envs: nat -> Env, qs: seq<Request>, rest: seq<byte>,
                    out: seq<byte>, fs: Fs, k: nat)
    requires qs != [] && Follows(run, envs, qs[0], RequestsBytes(qs[1..]) + rest, out, fs, k)
    ensures var s := Serve(qs[0], fs, envs(k));
      run(Io(RequestsBytes(qs) + rest, out, fs), k)
        == run(Io(RequestsBytes(qs[1..]) + rest, out + AnswerBytes(s.0), s.1), k + 1)
  {
    Regroup(RequestBytes(qs[0]), RequestsBytes(qs[1..]), rest);
  }

  lemma FollowsStep(run: (Io, nat) -> Io, envs: nat -> Env, qs: seq<Request>, rest: seq<byte>,
                    out: seq<byte>, fs: Fs, k: nat, s: (Answer, Fs))
    requires qs != [] && Follows(run, envs, qs[0], RequestsBytes(qs[1..]) + rest, out, fs, k)
    requires s == Serve(qs[0], fs, envs(k))
    requires run(Io(RequestsBytes(qs[1..]) + rest, out + AnswerBytes(s.0), s.1), k + 1)
      == run(Served(qs[1..], rest, out + AnswerBytes(s.0), s.1, envs, k + 1), k + |qs|)
    ensures run(Io(RequestsBytes(qs) + rest, out, fs), k) == run(Served(qs, rest, out, fs, envs, k), k + |qs|)
  {
    FollowsHead(run, envs, qs, rest, out, fs, k);
    ServedMore(qs, rest, out, fs, envs, k);
  }

  lemma {:induction false} FollowsAll(run: (Io, nat) -> Io, envs: nat -> Env, qs: seq<Request>, rest: seq<byte>,
                                      out: seq<byte>, fs: Fs, k: nat)
    requires forall q, more, out, fs, k :: Follows(run, envs, q, more, out, fs, k)
    ensures run(Io(RequestsBytes(qs) + rest, out, fs), k) == run(Served(qs, rest, out, fs, envs, k), k + |qs|)
    decreases |qs|
  {
    if qs == [] {
      ServedNone(rest, out, fs, envs, k);
    } else {
      var s := Serve(qs[0], fs, envs(k));
      FollowsAll(run, envs, qs[1..], rest, out + AnswerBytes(s.0), s.1, k + 1);
      FollowsStep(run, envs, qs, rest, out, fs, k, s);
    }
  }

  /** The session as a function of its state and the number of requests before it. */
  ghost function Run(envs: nat -> Env): (Io, nat) -> Io { (io: Io, k: nat) => Session(io, envs, k) }

  lemma SessionFollows(envs: nat -> Env, q: Request, rest: seq<byte>, out: seq<byte>, fs: Fs, k: nat)
    ensures Follows(Run(envs), envs, q, rest, out, fs, k)
  {
    RequestStep(q, rest, out, fs, envs, k);
  }

  lemma SessionAlwaysFollows(envs: nat -> Env)
    ensures forall q, rest, out, fs, k :: Follows(Run(envs), envs, q, rest, out, fs, k)
  {
    forall q, rest, out, fs, k ensures Follows(Run(envs), envs, q, rest, out, fs, k) {
      SessionFollows(envs, q, rest, out, fs, k);
    }
  }

  /**
   * On any sequence of well-formed requests, and whatever the file operations do, the
   * session sends exactly the answers of the abstract server and goes on at the first byte
   * after the last request.
   */
  lemma SessionServes(qs: seq<Request>, rest: seq<byte>, out: seq<byte>, fs: Fs, envs: nat -> Env, k: nat)
    ensures Run(envs)(Io(RequestsBytes(qs) + rest, out, fs), k) == Run(envs)(Served(qs, rest, out, fs, envs, k), k + |qs|)
  {
    SessionAlwaysFollows(envs);
    FollowsAll(Run(envs), envs, qs, rest, out, fs, k);
  }

  function Quit(): seq<byte> { ID_QUIT + Le(0) }

  lemma QuitEnds(rest: seq<byte>, out: seq<byte>, fs: Fs, envs: nat -> Env, k: nat)
    ensures Quits(Run(envs), rest, out, fs, k)
  {
    HeadParses(ID_QUIT, 0, rest);
    assert rest[0..] == rest;
  }

  ghost predicate Quits(run: (Io, nat) -> Io, rest: seq<byte>, out: seq<byte>, fs: Fs, k: nat) {
    run(Io(Quit() + rest, out, fs), k) == Io(rest, out, fs)
  }

  lemma SessionAlwaysQuits(envs: nat -> Env)
    ensures forall rest, out, fs, k :: Quits(Run(envs), rest, out, fs, k)
  {
    forall rest, out, fs, k ensures Quits(Run(envs), rest, out, fs, k) {
      QuitEnds(rest, out, fs, envs, k);
    }
  }

  ghost predicate ServesUntilQuit(run: (Io, nat) -> Io, envs: nat -> Env, qs: seq<Request>, rest: seq<byte>,
                                  out: seq<byte>, fs: Fs, k: nat) {
    var r := ServeAll(qs, fs, envs, k);
    run(Io(RequestsBytes(qs) + (Quit() + rest), out, fs), k) == Io(rest, out + AnswersBytes(r.0), r.1)
  }

  lemma EndsAll(run: (Io, nat) -> Io, envs: nat -> Env, qs: seq<Request>, rest: seq<byte>,
                out: seq<byte>, fs: Fs, k: nat)
    requires forall q, more, out, fs, k :: Follows(run, envs, q, more, out, fs, k)
    requires forall more, out, fs, k :: Quits(run, more, out, fs, k)
    ensures ServesUntilQuit(run, envs, qs, rest, out, fs, k)
  {
    var r := ServeAll(qs, fs, envs, k);
    FollowsAll(run, envs, qs, Quit() + rest, out, fs, k);
    assert Quits(run, rest, out + AnswersBytes(r.0), r.1, k + |qs|);
  }

  /**
   * A whole session ended by QUIT leaves the files of the abstract server, has read nothing
   * past QUIT, and has sent exactly its answers ...
   */
  lemma SessionEnds(qs: seq<Request>, rest: seq<byte>, out: seq<byte>, fs: Fs, envs: nat -> Env, k: nat)
    ensures ServesUntilQuit(Run(envs), envs, qs, rest, out, fs, k)
  {
    SessionAlwaysFollows(envs);
    SessionAlwaysQuits(envs);
    EndsAll(Run(envs), envs, qs, rest, out, fs, k);
  }

  /** ... from which the client, knowing only what it asked, reads one answer per request and nothing else. */
  lemma RepliesParse(qs: seq<Request>, fs: Fs, envs: nat -> Env, k: nat)
    ensures var r := ServeAll(qs, fs, envs, k);
      ParseAnswers(qs, AnswersBytes(r.0)) == Some((r.0, []))
  {
    var r := ServeAll(qs, fs, envs, k);
    AnswersParse(qs, r.0, []);
    assert AnswersBytes(r.0) + [] == AnswersBytes(r.0);
  }

  // ---- what a transfer leaves in the file ----

  /** OKAY means every write worked, and the reverse. */
  lemma OkayIffAllStored(q: Request, fs: Fs, env: Env)
    requires q.Send?
    ensures Serve(q, fs, env).0 == SendAnswer(None)
      <==> env.opens && forall i :: 0 <= i < |q.chunks| ==> !ChunkFails(q.chunks, env, i)
  {
  }

  /** No file longer than the new one is left in place at the target. */
  predicate NoLongerFile(fs: Fs, path: seq<byte>, env: Env, n: nat) {
    env.unlinks || path !in fs || |fs[path]| <= n
  }

  /**
   * After OKAY the file that the request targets holds exactly the bytes sent if and only if no
   * longer file was left in place: a failed unlink is followed by a reopen without truncation.
   */
  lemma OkayMeansExactFile(q: Request, fs: Fs, env: Env, p: seq<byte>)
    requires q.Send? && Targets(q.name, p) && Serve(q, fs, env).0 == SendAnswer(None)
    ensures var fs', all := Serve(q, fs, env).1, Flat(q.chunks);
      p in fs' && (fs'[p] == all <==> NoLongerFile(fs, p, env, |all|))
  {
    TargetsIsExact(q.name, p);
    var before, all := Contents(Unlinked(fs, p, env.unlinks), p), Flat(q.chunks);
    assert Serve(q, fs, env).1[p] == Over(before, all);
    assert |before| > |all| ==> |Over(before, all)| == |before|;
    assert |before| <= |all| ==> Over(before, all) == all;
  }

  /** The other case happens: a one-byte file sent over a two-byte file that unlink left in place. */
  lemma StaleTailIsReachable(env: Env)
    requires env.opens && !env.unlinks && env.writing(0).Wrote?
    ensures var q, fs := Send([97], [[7]], 0), map[[97] := [1, 2]];
      Serve(q, fs, env) == (SendAnswer(None), map[[97] := [7, 2]])
  {
    var name: Name, chunks: seq<Chunk64> := [97], [[7]];
    var fs: Fs := map[name := [1, 2]];
    assert CString(name) == [97] + CString(name[1..]) == name;
    assert LastComma(name) == LastComma(name[..0]) == None;
    assert SendPath(name) == name;
    FlatOne(chunks[0]);
    assert Stored(chunks, env, 0) == Stored(chunks, env, 1) == 1;
    assert Over([1, 2], [7]) == [7, 2];
    assert Serve(Send(name, chunks, 0), fs, env) == SendOutcome(name, chunks, fs, env, 1);
    assert fs[name := [7, 2]] == map[[97] := [7, 2]];
  }

  /** No request touches any file but the target of a SEND. */
  lemma OnlyTheTargetChanges(q: Request, fs: Fs, env: Env, p: seq<byte>)
    requires q.Send? ==> !Targets(q.name, p)
    ensures var fs' := Serve(q, fs, env).1;
      (p in fs' <==> p in fs) && (p in fs ==> fs'[p] == fs[p])
  {
    if q.Send? { TargetsIsExact(q.name, p); }
  }

  /** A failed SEND leaves nothing behind when its unlinks work. */
  lemma FailureCleansUp(q: Request, fs: Fs, env: Env, p: seq<byte>)
    requires q.Send? && Targets(q.name, p)
    requires env.unlinks && env.cleans && Serve(q, fs, env).0 != SendAnswer(None)
    ensures p !in Serve(q, fs, env).1
  {
    TargetsIsExact(q.name, p);
  }

  /**
   * The output of a successful RECV of file p is, byte for byte, the body of a SEND.  Sending it
   * to t is answered OKAY exactly when the open and every write work, and then reproduces the
   * file exactly when no longer file was left in place.
   */
  lemma PullThenPush(from: Name, p: seq<byte>, to: Name, t: seq<byte>, fs: Fs, env: Env, fs2: Fs, env2: Env,
                     rest: seq<byte>, out: seq<byte>)
    requires NamesFile(from, p) && Targets(to, t) && Serve(Recv(from), fs, env).0.failed.None?
    ensures var a := Serve(Recv(from), fs, env).0;
      var b := Serve(Send(to, a.chunks, 0), fs2, env2);
      && p in fs
      && DoSend(Io(AnswerBytes(a) + rest, out, fs2), to, env2) == (Io(rest, out + AnswerBytes(b.0), b.1), true)
      && (b.0 == SendAnswer(None)
          <==> env2.opens && forall i :: 0 <= i < |a.chunks| ==> !ChunkFails(a.chunks, env2, i))
      && (b.0 == SendAnswer(None) ==>
            t in b.1 && (b.1[t] == fs[p] <==> NoLongerFile(fs2, t, env2, |fs[p]|)))
  {
    var a := Serve(Recv(from), fs, env).0;
    var q := Send(to, a.chunks, 0);
    NamesFileIsExact(from, p);
    assert AnswerBytes(a) == Body(q);
    SendStaysInFrame(q, rest, out, fs2, env2);
    OkayIffAllStored(q, fs2, env2);
    if Serve(q, fs2, env2).0 == SendAnswer(None) { OkayMeansExactFile(q, fs2, env2, t); }
  }

  /**
   * What was pushed to p is what is pulled from p, exactly when no longer file was left in
   * place; a pull that fails midway has given a prefix of the file.
   */
  lemma PushThenPull(q: Request, name: Name, p: seq<byte>, fs: Fs, env: Env, env2: Env)
    requires q.Send? && Targets(q.name, p) && NamesFile(name, p) && Serve(q, fs, env).0 == SendAnswer(None)
    ensures var fs', a := Serve(q, fs, env).1, Serve(Recv(name), Serve(q, fs, env).1, env2).0;
      && p in fs' && Flat(a.chunks) <= fs'[p]
      && (a.failed.None? ==> (Flat(a.chunks) == Flat(q.chunks) <==> NoLongerFile(fs, p, env, |Flat(q.chunks)|)))
  {
    NamesFileIsExact(name, p);
    OkayMeansExactFile(q, fs, env, p);
  }

  // ---- what the other requests and the malformed ones are answered ----

  /**
   * RECV succeeds exactly when the file is there, opens, and every read of it works; the reads
   * that work before one fails have all been delivered.
   */
  lemma RecvIsExact(name: Name, p: seq<byte>, fs: Fs, env: Env)
    requires NamesFile(name, p)
    ensures var a := Serve(Recv(name), fs, env).0;
      && (a.failed.None? <==> env.opens && p in fs && ReadsWork(env, 0, |a.chunks| + 1))
      && (env.opens && p in fs ==>
            && Flat(a.chunks) <= fs[p] && (a.failed.None? ==> Flat(a.chunks) == fs[p])
            && (a.failed.Some? ==> a.failed.value == env.err && env.reading(|a.chunks|).ReadFailed?))
  {
    NamesFileIsExact(name, p);
    if env.opens && p in fs { ReadsAreGot(fs[p], env, 0); }
  }

  predicate ReadsWork(env: Env, from: nat, to: nat) {
    forall j :: from <= j < to ==> env.reading(j).Got?
  }

  lemma {:induction false} ReadsAreGot(left: seq<byte>, env: Env, k: nat)
    ensures var r := ReadChunks(left, env, k);
      ReadsWork(env, k, k + |r.0|) && (r.1 <==> env.reading(k + |r.0|).Got?)
    decreases |left|
  {
    if env.reading(k).Got? {
      var n := Taken(env.reading(k).n, left);
      if n > 0 {
        ReadsAreGot(left[n..], env, k + 1);
        assert |ReadChunks(left, env, k).0| == 1 + |ReadChunks(left[n..], env, k + 1).0|;
      }
    }
  }

  predicate Listable(d: DirEntry) { |d.name| < 256 && d.meta.Some? }

  lemma ListedHead(dir: seq<DirEntry>)
    requires dir != []
    ensures Listed(dir) == (if Listable(dir[0]) then [Entry(dir[0].meta.value, dir[0].name)] else []) + Listed(dir[1..])
  {
  }

  lemma {:induction false} ListedAppend(a: seq<DirEntry>, b: seq<DirEntry>)
    ensures Listed(a + b) == Listed(a) + Listed(b)
  {
    if a == [] {
      assert a + b == b;
    } else {
      assert (a + b)[1..] == a[1..] + b && (a + b)[0] == a[0];
      ListedHead(a);
      ListedHead(a + b);
      ListedAppend(a[1..], b);
      Regroup(if Listable(a[0]) then [Entry(a[0].meta.value, a[0].name)] else [], Listed(a[1..]), Listed(b));
    }
  }

  /** LIST names every entry with a short name and a working lstat, and no other, in order. */
  lemma ListedIsExact(a: seq<DirEntry>, d: DirEntry, b: seq<DirEntry>)
    ensures Listed([]) == []
    ensures Listed(a + [d] + b)
      == Listed(a) + (if Listable(d) then [Entry(d.meta.value, d.name)] else []) + Listed(b)
  {
    ListedAppend(a + [d], b);
    ListedAppend(a, [d]);
    ListedHead([d]);
    assert [d][1..] == [];
  }

  /** STAT answers what lstat found, or zeros. */
  lemma StatIsExact(name: Name, fs: Fs, env: Env)
    ensures var r := Serve(Stat(name), fs, env);
      r.1 == fs && r.0.StatAnswer? && r.0.meta == if env.meta.Some? then env.meta.value else Meta(0, 0, 0)
  {
  }

  predicate Unknown(inp: seq<byte>) {
    && |inp| >= 8 && FromLe(inp[4..8]) == 0
    && inp[..4] !in {Text("STAT"), Text("LIST"), Text("SEND"), Text("RECV"), Text("QUIT")}
  }

  /** Input that is no request ends the session with one FAIL that says why; the files are left alone. */
  lemma BadRequests(io: Io, env: Env)
    ensures |io.inp| < 8 ==> Round(io, env) == (Io([], io.out + FailMsg(Text("command read failure")), io.fs), false)
    ensures |io.inp| >= 8 && FromLe(io.inp[4..8]) > 1024 ==>
      Round(io, env) == (Io(io.inp[8..], io.out + FailMsg(Text("invalid namelen")), io.fs), false)
    ensures |io.inp| >= 8 && FromLe(io.inp[4..8]) <= 1024 && |io.inp| < 8 + FromLe(io.inp[4..8]) ==>
      Round(io, env) == (Io([], io.out + FailMsg(Text("filename read failure")), io.fs), false)
    ensures Unknown(io.inp) ==>
      Round(io, env) == (Io(io.inp[8..], io.out + FailMsg(Text("unknown command")), io.fs), false)
  {
    IdsAreText();
    if |io.inp| >= 8 { assert io.inp[8..][0..] == io.inp[8..]; }
  }

  /** Input that is no data or done message ends a transfer and the session, and the file is removed. */
  lemma BadTransfers(io: Io, path: seq<byte>, fd: Option<nat>, env: Env, k: nat)
    requires FdOk(io.fs, path, fd) && env.cleans
    ensures |io.inp| < 8 ==> SendRound(io, path, fd, env, k) == Stop(Io([], io.out, io.fs - {path}), false)
    ensures |io.inp| >= 8 && io.inp[..4] !in {Text("DATA"), Text("DONE")} ==>
      SendRound(io, path, fd, env, k) == Stop(Io(io.inp[8..], io.out + FailMsg(Text("invalid data message")), io.fs - {path}), false)
    ensures |io.inp| >= 8 && io.inp[..4] == Text("DATA") && FromLe(io.inp[4..8]) > 65536 ==>
      SendRound(io, path, fd, env, k) == Stop(Io(io.inp[8..], io.out + FailMsg(Text("oversize data message")), io.fs - {path}), false)
    ensures |io.inp| >= 8 && io.inp[..4] == Text("DATA") && FromLe(io.inp[4..8]) <= 65536 && |io.inp| < 8 + FromLe(io.inp[4..8]) ==>
      SendRound(io, path, fd, env, k) == Stop(Io([], io.out, io.fs - {path}), false)
  {
    IdsAreText();
  }
}
