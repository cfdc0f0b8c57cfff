/**
 * The file-sync service in its own form: loops over the two pipes and the file system,
 * proved to compute the functions of `FileSync`.
 */
module SyncService {
  import opened Common
  import opened Framing
  import opened SyncWire
  import opened FileSync

  class Service {
    var inp: seq<byte>
    var out: seq<byte>
    var fs: Fs

    function State(): Io
      reads this
    {
      Io(inp, out, fs)
    }

    constructor (input: seq<byte>, files: Fs)
      ensures State() == Io(input, [], files)
    {
      inp, out, fs := input, [], files;
    }

    /** readx from the request pipe; a short input is used up. */
    method Take(len: nat) returns (ok: bool, d: seq<byte>)
      modifies this`inp
      ensures ok <==> len <= |old(inp)|
      ensures ok ==> d == old(inp)[..len] && inp == old(inp)[len..]
      ensures !ok ==> inp == []
    {
      var rest, left;
      ok, d, rest, left := Readx(inp, [], len);
      inp := if ok then rest else [];
    }

    /** The identifier and the number every message starts with. */
    method TakeHead() returns (ok: bool, id: seq<byte>, len: nat)
      modifies this`inp
      ensures ok <==> 8 <= |old(inp)|
      ensures ok ==> id == old(inp)[..4] && len == FromLe(old(inp)[4..8]) && inp == old(inp)[8..]
      ensures !ok ==> inp == []
    {
      var head;
      ok, head := Take(8);
      if !ok { return false, [], 0; }
      assert head[4..8] == old(inp)[4..8];
      id, len := head[..4], FromLe(head[4..8]);
    }

    /** writex to the reply pipe. */
    method Put(msg: seq<byte>)
      modifies this`out
      ensures out == old(out) + msg
    {
      var ok, sent := Writex(msg, [], None);
      out := out + sent;
    }

    /** writex to the open file at position pos, and what happens when it fails. */
    method Store(path: seq<byte>, pos: nat, d: Chunk64, env: Env, k: nat) returns (fd: Option<nat>)
      requires FdOk(fs, path, Some(pos))
      modifies this`out, this`fs
      ensures (State(), fd) == StoreChunk(old(State()), path, pos, d, env, k)
    {
      if d == [] || env.writing(k).Wrote? {
        fs := fs[path := WriteAt(fs[path], pos, d)];
        return Some(pos + |d|);
      }
      var part := d[..Min(env.writing(k).n, |d|)];
      fs := fs[path := WriteAt(fs[path], pos, part)];
      if env.cleans { fs := fs - {path}; }
      Put(FailMsg(env.err));
      fd := None;
    }

    method SendFile(name: seq<byte>, env: Env) returns (ok: bool)
      modifies this
      ensures (State(), ok) == DoSend(old(State()), name, env)
    {
      var path := SendPath(name);
      if env.unlinks { fs := fs - {path}; }
      var fd: Option<nat> := None;
      if env.opens {
        if path !in fs { fs := fs[path := []]; }
        fd := Some(0);
        assert fs == fs[path := fs[path]];
      } else {
        Put(FailMsg(env.err));
      }
      ok := Transfer(path, fd, env);
    }

    method Abandoned(path: seq<byte>, env: Env) returns (r: Next)
      modifies this`fs
      ensures r == Abandon(old(State()), path, env) && State() == r.io
    {
      if env.cleans { fs := fs - {path}; }
      r := Stop(State(), false);
    }

    /** One data or done message. */
    method Message(path: seq<byte>, fd: Option<nat>, env: Env, k: nat) returns (r: Next)
      requires FdOk(fs, path, fd)
      modifies this
      ensures r == SendRound(old(State()), path, fd, env, k) && State() == r.io
    {
      var ok, id, len := TakeHead();
      if !ok { r := Abandoned(path, env); return; }
      if id == ID_DONE {
        if fd.Some? { Put(OkayMsg()); }
        return Stop(State(), true);
      }
      if id != ID_DATA {
        Put(FailMsg(INVALID_DATA));
        r := Abandoned(path, env);
        return;
      }
      if len > SYNC_DATA_MAX {
        Put(FailMsg(OVERSIZE_DATA));
        r := Abandoned(path, env);
        return;
      }
      var d;
      ok, d := Take(len);
      if !ok { r := Abandoned(path, env); return; }
      var fd' := fd;
      if fd.Some? { fd' := Store(path, fd.value, d, env, k); }
      r := Go(State(), fd');
    }

    /** The loop of handle_send_file. */
    method Transfer(path: seq<byte>, start: Option<nat>, env: Env) returns (ok: bool)
      requires FdOk(fs, path, start)
      modifies this
      ensures (State(), ok) == SendLoop(old(State()), path, start, env, 0)
    {
      var next, k := Go(State(), start), 0;
      while next.Go?
        invariant State() == next.io
        invariant next.Go? ==> FdOk(fs, path, next.fd)
        invariant (if next.Go? then SendLoop(next.io, path, next.fd, env, k) else (next.io, next.ok))
               == SendLoop(old(State()), path, start, env, 0)
        decreases next.Go?, |inp|
      {
        next := Message(path, next.fd, env, k);
        k := k + 1;
      }
      ok := next.ok;
    }

    method RecvFile(name: seq<byte>, env: Env)
      modifies this`out
      ensures State() == DoRecv(old(State()), name, env)
    {
      var path := CString(name);
      if !env.opens || path !in fs {
        Put(FailMsg(env.err));
        return;
      }
      var left, k := fs[path], 0;
      while true
        invariant RecvLoop(State(), left, env, k) == DoRecv(old(State()), name, env)
        invariant inp == old(inp) && fs == old(fs)
        decreases |left|
      {
        if env.reading(k).ReadFailed? {
          Put(FailMsg(env.err));
          return;
        }
        var n := Taken(env.reading(k).n, left);
        if n == 0 { break; }
        Put(DataMsg(left[..n]));
        left, k := left[n..], k + 1;
      }
      Put(DoneMsg(0));
    }

    method ListDir(env: Env)
      modifies this`out
      ensures State() == DoList(old(State()), env)
    {
      var dir := if env.dir.Some? then env.dir.value else [];
      while dir != []
        invariant ListLoop(State(), dir) == DoList(old(State()), env)
        decreases |dir|
      {
        var e := dir[0];
        dir := dir[1..];
        if |e.name| < 256 && e.meta.Some? { Put(DentMsg(Entry(e.meta.value, e.name))); }
      }
      Put(ListEnd());
    }

    /** The switch over the request identifier. */
    method Handle(id: seq<byte>, name: Name, env: Env) returns (more: bool)
      modifies this
      ensures (State(), more) == Dispatch(old(State()), id, name, env)
    {
      more := true;
      if id == ID_STAT {
        Put(StatMsg(if env.meta.Some? then env.meta.value else Meta(0, 0, 0)));
      } else if id == ID_LIST {
        ListDir(env);
      } else if id == ID_SEND {
        more := SendFile(name, env);
      } else if id == ID_RECV {
        RecvFile(name, env);
      } else {
        if id != ID_QUIT { Put(FailMsg(UNKNOWN_COMMAND)); }
        more := false;
      }
    }

    /** One request. */
    method Request(env: Env) returns (more: bool)
      modifies this
      ensures (State(), more) == Round(old(State()), env)
    {
      var ok, id, len := TakeHead();
      if !ok {
        Put(FailMsg(COMMAND_READ));
        return false;
      }
      if len > 1024 {
        Put(FailMsg(INVALID_NAMELEN));
        return false;
      }
      var name;
      ok, name := Take(len);
      if !ok {
        Put(FailMsg(NAME_READ));
        return false;
      }
      more := Handle(id, name, env);
    }

    /** file_sync_service. */
    method Serve(envs: nat -> Env)
      modifies this
      ensures State() == Session(old(State()), envs, 0)
    {
      var more, k := true, 0;
      while more
        invariant (if more then Session(State(), envs, k) else State()) == Session(old(State()), envs, 0)
        decreases more, |inp|
      {
        more := Request(envs(k));
        k := k + 1;
      }
    }
  }
}
