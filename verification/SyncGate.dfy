/**
 * The SYNC gate between the main loop and the wire (adbd/src/transport.c, the SYNC case of
 * handle_packet in adbd/src/adb.c).  Three actors run in any interleaving: the output
 * thread turns wire packets into a pipe to the main loop, the main loop answers and echoes
 * SYNC packets into a second pipe, the input thread filters that pipe onto the wire.
 */
module SyncGate {
  import opened Common

  datatype Packet = Sync(arg0: nat, arg1: nat) | Other(tag: nat)

  datatype Pump = Starting | Running | Ended

  /**
   * `toMain` and `toIo` are the two pipes; `handled` is everything the main loop ever took
   * from toMain, `queued` everything it ever wrote to toIo; `wire` what was handed to
   * write_to_remote.
   */
  datatype State = State(
    token: nat, output: Pump, toMain: seq<Packet>, handled: seq<Packet>, queued: seq<Packet>, toIo: seq<Packet>,
    active: bool, stopped: bool, wire: seq<Packet>)

  function Init(token: nat): State {
    State(token, Starting, [], [], [], [], false, false, [])
  }

  datatype Step =
    | OutputStarts                        // SYNC(1, ++sync_token)
    | OutputFailsToStart                  // the token is taken, but the SYNC is not written
    | OutputForwards(p: Packet)           // a packet read from the remote, of any kind
    | OutputEnds                          // SYNC(0, 0)
    | OutputAborts                        // a pipe write failed: no SYNC(0, 0)
    | MainHandles(replies: seq<nat>)      // one packet from toMain
    | MainSends(replies: seq<nat>)        // packets for other reasons, at any time
    | InputReads
    | InputAborts                         // the pipe read failed

  function Others(tags: seq<nat>): (ps: seq<Packet>)
    ensures |ps| == |tags| && forall i :: 0 <= i < |ps| ==> ps[i] == Other(tags[i])
  {
    seq(|tags|, i requires 0 <= i < |tags| => Other(tags[i]))
  }

  function Queue(s: State, ps: seq<Packet>): State {
    s.(queued := s.queued + ps, toIo := s.toIo + ps)
  }

  /** input_thread on one packet. */
  function Filter(s: State, p: Packet): State {
    match p
    case Sync(a0, a1) =>
      if a0 == 0 then s.(stopped := true)
      else if a1 == s.token then s.(active := true)
      else s
    case Other(_) => if s.active then s.(wire := s.wire + [p]) else s
  }

  function Next(s: State, step: Step): State {
    match step
    case OutputStarts =>
      if s.output.Starting?
      then s.(output := Running, token := s.token + 1, toMain := s.toMain + [Sync(1, s.token + 1)])
      else s
    case OutputFailsToStart =>
      if s.output.Starting? then s.(output := Ended, token := s.token + 1) else s
    case OutputForwards(p) => if s.output.Running? then s.(toMain := s.toMain + [p]) else s
    case OutputEnds =>
      if s.output.Running? then s.(output := Ended, toMain := s.toMain + [Sync(0, 0)]) else s
    case OutputAborts => if s.output.Running? then s.(output := Ended) else s
    case MainHandles(replies) =>
      if s.toMain == [] then s
      else
        var s1 := s.(toMain := s.toMain[1..], handled := s.handled + [s.toMain[0]]);
        Queue(s1, if s.toMain[0].Sync? then [s.toMain[0]] else Others(replies))
    case MainSends(replies) => Queue(s, Others(replies))
    case InputReads =>
      if s.stopped || s.toIo == [] then s
      else Filter(s.(toIo := s.toIo[1..]), s.toIo[0])
    case InputAborts => s.(stopped := true)
  }

  function Run(token: nat, steps: seq<Step>): State {
    if steps == [] then Init(token) else Next(Run(token, steps[..|steps| - 1]), steps[|steps| - 1])
  }

  // ---- the gate, stated on the whole record of what the main loop queued ----

  /** The first SYNC(nonzero, token), or the length. */
  function Opening(q: seq<Packet>, token: nat): (i: nat)
    ensures i <= |q|
    ensures i < |q| ==> q[i].Sync? && q[i].arg0 != 0 && q[i].arg1 == token
    ensures forall k :: 0 <= k < i ==> !(q[k].Sync? && q[k].arg0 != 0 && q[k].arg1 == token)
  {
    if q == [] then 0
    else if q[0].Sync? && q[0].arg0 != 0 && q[0].arg1 == token then 0
    else 1 + Opening(q[1..], token)
  }

  /** The first SYNC(0), or the length. */
  function Shutting(q: seq<Packet>): (j: nat)
    ensures j <= |q|
    ensures j < |q| ==> q[j].Sync? && q[j].arg0 == 0
    ensures forall k :: 0 <= k < j ==> !(q[k].Sync? && q[k].arg0 == 0)
  {
    if q == [] then 0 else if q[0].Sync? && q[0].arg0 == 0 then 0 else 1 + Shutting(q[1..])
  }

  function NoSync(q: seq<Packet>): (r: seq<Packet>)
    ensures forall k :: 0 <= k < |r| ==> r[k].Other?
  {
    if q == [] then [] else (if q[0].Other? then [q[0]] else []) + NoSync(q[1..])
  }

  /** The packets queued between the opening and the shutting SYNC, without SYNCs, in order. */
  function Passed(q: seq<Packet>, token: nat): seq<Packet> {
    var i, j := Opening(q, token), Shutting(q);
    if i < j then NoSync(q[i + 1..j]) else []
  }

  lemma {:induction false} NoSyncAppend(q: seq<Packet>, p: Packet)
    ensures NoSync(q + [p]) == NoSync(q) + (if p.Other? then [p] else [])
  {
    if q == [] {
      assert q + [p] == [p];
      assert [p][1..] == [];
    } else {
      assert (q + [p])[1..] == q[1..] + [p];
      NoSyncAppend(q[1..], p);
    }
  }

  lemma {:induction false} OpeningAppend(q: seq<Packet>, p: Packet, token: nat)
    ensures Opening(q + [p], token)
      == if Opening(q, token) < |q| then Opening(q, token)
         else if p.Sync? && p.arg0 != 0 && p.arg1 == token then |q| else |q| + 1
  {
    if q == [] {
      assert q + [p] == [p];
      assert [p][1..] == [];
    } else {
      assert (q + [p])[1..] == q[1..] + [p];
      OpeningAppend(q[1..], p, token);
    }
  }

  lemma {:induction false} ShuttingAppend(q: seq<Packet>, p: Packet)
    ensures Shutting(q + [p])
      == if Shutting(q) < |q| then Shutting(q) else if p.Sync? && p.arg0 == 0 then |q| else |q| + 1
  {
    if q == [] {
      assert q + [p] == [p];
      assert [p][1..] == [];
    } else {
      assert (q + [p])[1..] == q[1..] + [p];
      ShuttingAppend(q[1..], p);
    }
  }

  /** What the input thread has read so far. */
  function Read(s: State): seq<Packet>
    requires |s.toIo| <= |s.queued|
  {
    s.queued[..|s.queued| - |s.toIo|]
  }

  ghost predicate NoOpening(q: seq<Packet>) {
    forall k :: 0 <= k < |q| ==> !q[k].Sync?
  }

  /** The input thread's flags and the wire, as functions of what it has read. */
  ghost predicate Gate(q: seq<Packet>, token: nat, active: bool, stopped: bool, wire: seq<Packet>) {
    && (Shutting(q) < |q| ==> stopped && Shutting(q) == |q| - 1)
    && (active <==> Opening(q, token) < Shutting(q))
    && wire == Passed(q, token)
  }

  ghost predicate Inv(s: State) {
    && |s.toIo| <= |s.queued| && s.queued == Read(s) + s.toIo
    && (s.output.Starting? ==> s.toMain == [] && NoOpening(s.queued))
    && Gate(Read(s), s.token, s.active, s.stopped, s.wire)
  }

  /** Reading one more packet while the gate has not been shut: an open gate passes it on. */
  lemma PassedOpen(q: seq<Packet>, p: Packet, token: nat)
    requires Shutting(q) == |q| && Opening(q, token) < |q|
    ensures Passed(q + [p], token) == Passed(q, token) + (if p.Other? then [p] else [])
  {
    OpeningAppend(q, p, token);
    ShuttingAppend(q, p);
    var i := Opening(q, token);
    var rest := q[i + 1..];
    NoSyncAppend(rest, p);
    SliceAppend(q, p, i + 1);
    assert Passed(q, token) == NoSync(rest);
    assert Passed(q + [p], token) == NoSync(if p.Sync? && p.arg0 == 0 then rest else rest + [p]);
  }

  lemma SliceAppend(q: seq<Packet>, p: Packet, i: nat)
    requires i <= |q|
    ensures (q + [p])[i..|q|] == q[i..|q|] == q[i..] && (q + [p])[i..|q| + 1] == q[i..] + [p]
  {
  }

  /** A gate that is not open yet passes nothing, not even the SYNC that opens it. */
  lemma PassedShut(q: seq<Packet>, p: Packet, token: nat)
    requires Shutting(q) == |q| && Opening(q, token) == |q|
    ensures Passed(q + [p], token) == Passed(q, token) == []
  {
    OpeningAppend(q, p, token);
    ShuttingAppend(q, p);
    SliceAppend(q, p, |q|);
    assert (q + [p])[|q| + 1..] == [];
  }

  lemma PassedAppend(q: seq<Packet>, p: Packet, token: nat)
    requires Shutting(q) == |q|
    ensures Passed(q + [p], token)
      == Passed(q, token) + (if Opening(q, token) < |q| && p.Other? then [p] else [])
  {
    if Opening(q, token) < |q| { PassedOpen(q, p, token); } else { PassedShut(q, p, token); }
  }

  lemma GateRead(s: State, q: seq<Packet>, p: Packet)
    requires Gate(q, s.token, s.active, s.stopped, s.wire) && !s.stopped
    ensures var s' := Filter(s, p);
      Gate(q + [p], s'.token, s'.active, s'.stopped, s'.wire)
  {
    OpeningAppend(q, p, s.token);
    ShuttingAppend(q, p);
    PassedAppend(q, p, s.token);
    assert s.wire + [] == s.wire;
  }

  /** Filtering touches only the flags and the wire. */
  lemma FilterFrame(s: State, p: Packet)
    ensures var s' := Filter(s, p);
      s'.queued == s.queued && s'.toIo == s.toIo && s'.toMain == s.toMain && s'.output == s.output && s'.token == s.token
  {
  }

  lemma FilterInv(s: State)
    requires Inv(s) && !s.stopped && s.toIo != []
    ensures Inv(Next(s, InputReads))
  {
    var s1, p := s.(toIo := s.toIo[1..]), s.toIo[0];
    GateRead(s1, Read(s), p);
    ReadMore(s, s1);
    FilterFrame(s1, p);
  }

  lemma ReadMore(s: State, s': State)
    requires |s.toIo| <= |s.queued| && s.queued == Read(s) + s.toIo && s.toIo != []
    requires s'.queued == s.queued && s'.toIo == s.toIo[1..]
    ensures |s'.toIo| <= |s'.queued| && Read(s') == Read(s) + [s.toIo[0]] && s'.queued == Read(s') + s'.toIo
  {
  }

  lemma QueueInv(s: State, ps: seq<Packet>)
    requires Inv(s) && (s.output.Starting? ==> NoOpening(ps))
    ensures Inv(Queue(s, ps))
  {
    assert Read(Queue(s, ps)) == Read(s);
    Regroup(Read(s), s.toIo, ps);
  }

  lemma {:induction false} NoOpeningMeansShut(q: seq<Packet>, token: nat)
    requires NoOpening(q)
    ensures Opening(q, token) == |q| && Shutting(q) == |q|
  {
    if q != [] { NoOpeningMeansShut(q[1..], token); }
  }

  /** Steps that leave the pipe to the input thread and its view of it alone. */
  lemma FrameInv(s: State, s': State)
    requires Inv(s) && s'.queued == s.queued && s'.toIo == s.toIo && s'.token == s.token
    requires s'.active == s.active && s'.wire == s.wire && (s.stopped ==> s'.stopped)
    requires s'.output.Starting? ==> s.output.Starting? && s'.toMain == []
    ensures Inv(s')
  {
    assert Read(s') == Read(s);
  }

  /** Taking a new token before any SYNC exists. */
  lemma TokenInv(s: State, s': State)
    requires Inv(s) && s.output.Starting? && !s'.output.Starting?
    requires s'.queued == s.queued && s'.toIo == s.toIo && s'.active == s.active && s'.wire == s.wire && s'.stopped == s.stopped
    ensures Inv(s')
  {
    assert Read(s') == Read(s);
    NoOpeningMeansShut(Read(s), s.token);
    NoOpeningMeansShut(Read(s), s'.token);
  }

  lemma MainInv(s: State, replies: seq<nat>)
    requires Inv(s) && s.toMain != []
    ensures Inv(Next(s, MainHandles(replies)))
  {
    var s1 := s.(toMain := s.toMain[1..], handled := s.handled + [s.toMain[0]]);
    FrameInv(s, s1);
    QueueInv(s1, if s.toMain[0].Sync? then [s.toMain[0]] else Others(replies));
  }

  lemma StepInv(s: State, step: Step)
    requires Inv(s)
    ensures Inv(Next(s, step))
  {
    match step
    case OutputStarts => if s.output.Starting? { TokenInv(s, Next(s, step)); }
    case OutputFailsToStart => if s.output.Starting? { TokenInv(s, Next(s, step)); }
    case MainHandles(replies) => if s.toMain != [] { MainInv(s, replies); }
    case MainSends(replies) => QueueInv(s, Others(replies));
    case InputReads => if !s.stopped && s.toIo != [] { FilterInv(s); }
    case _ => FrameInv(s, Next(s, step));
  }

  lemma {:induction false} RunInv(token: nat, steps: seq<Step>)
    ensures Inv(Run(token, steps))
  {
    if steps != [] {
      RunInv(token, steps[..|steps| - 1]);
      StepInv(Run(token, steps[..|steps| - 1]), steps[|steps| - 1]);
    }
  }

  /**
   * In every interleaving, what has reached the wire is exactly the non-SYNC packets that
   * the main loop queued after echoing the matching SYNC(1, token) and before echoing
   * SYNC(0), as far as the input thread has read, in order; no SYNC reaches the wire; and
   * the thread forwards exactly while it has read the first of these and not the second.
   */
  lemma GateTheorem(token: nat, steps: seq<Step>)
    ensures var s := Run(token, steps);
      && |s.toIo| <= |s.queued|
      && s.wire == Passed(Read(s), s.token)
      && (forall k :: 0 <= k < |s.wire| ==> s.wire[k].Other?)
      && (s.active <==> Opening(Read(s), s.token) < Shutting(Read(s)))
  {
    RunInv(token, steps);
  }

  // ---- the gate does open ----

  /** What the output thread writes to its pipe and what becomes of it, told from the steps alone. */
  function Written(token: nat, steps: seq<Step>): (Pump, seq<Packet>) {
    if steps == [] then (Starting, [])
    else
      var (pump, q) := Written(token, steps[..|steps| - 1]);
      match steps[|steps| - 1]
      case OutputStarts => if pump.Starting? then (Running, q + [Sync(1, token + 1)]) else (pump, q)
      case OutputFailsToStart => (if pump.Starting? then Ended else pump, q)
      case OutputForwards(p) => (pump, if pump.Running? then q + [p] else q)
      case OutputEnds => if pump.Running? then (Ended, q + [Sync(0, 0)]) else (pump, q)
      case OutputAborts => (if pump.Running? then Ended else pump, q)
      case _ => (pump, q)
  }

  function Syncs(q: seq<Packet>): seq<Packet> {
    if q == [] then [] else (if q[0].Sync? then [q[0]] else []) + Syncs(q[1..])
  }

  lemma {:induction false} SyncsAppend(q: seq<Packet>, r: seq<Packet>)
    ensures Syncs(q + r) == Syncs(q) + Syncs(r)
  {
    if q == [] {
      assert q + r == r;
    } else {
      assert (q + r)[1..] == q[1..] + r && (q + r)[0] == q[0];
      SyncsAppend(q[1..], r);
      Regroup(if q[0].Sync? then [q[0]] else [], Syncs(q[1..]), Syncs(r));
    }
  }

  lemma {:induction false} NoSyncsInOthers(ps: seq<Packet>)
    requires forall i :: 0 <= i < |ps| ==> ps[i].Other?
    ensures Syncs(ps) == []
  {
    if ps != [] { NoSyncsInOthers(ps[1..]); }
  }

  /** The pipe to the main loop is a FIFO, the token is taken once, and SYNCs are echoed in order. */
  ghost predicate Pipes(s: State, token: nat, w: (Pump, seq<Packet>)) {
    && s.output == w.0 && s.handled + s.toMain == w.1
    && s.token == (if s.output.Starting? then token else token + 1)
    && Syncs(s.queued) == Syncs(s.handled)
  }

  lemma MainPipes(s: State, replies: seq<nat>, token: nat, w: (Pump, seq<Packet>))
    requires Pipes(s, token, w)
    ensures Pipes(Next(s, MainHandles(replies)), token, w)
  {
    if s.toMain != [] {
      var p := s.toMain[0];
      var answer := if p.Sync? then [p] else Others(replies);
      assert (s.handled + [p]) + s.toMain[1..] == s.handled + s.toMain;
      SyncsAppend(s.handled, [p]);
      SyncsAppend(s.queued, answer);
      if p.Other? { NoSyncsInOthers(answer); }
      assert [p][1..] == [];
    }
  }

  lemma SendPipes(s: State, replies: seq<nat>, token: nat, w: (Pump, seq<Packet>))
    requires Pipes(s, token, w)
    ensures Pipes(Next(s, MainSends(replies)), token, w)
  {
    SyncsAppend(s.queued, Others(replies));
    NoSyncsInOthers(Others(replies));
  }

  lemma OutputPipes(token: nat, before: seq<Step>, step: Step)
    requires Pipes(Run(token, before), token, Written(token, before))
    requires !step.MainHandles? && !step.MainSends?
    ensures Pipes(Next(Run(token, before), step), token, Written(token, before + [step]))
  {
    assert (before + [step])[..|before|] == before;
    OutputStep(Run(token, before), step, token, Written(token, before), Written(token, before + [step]));
  }

  /** Writing p at the end of the pipe to the main loop. */
  lemma PipeGrows(s: State, s': State, token: nat, w: (Pump, seq<Packet>), p: Packet)
    requires Pipes(s, token, w) && s'.toMain == s.toMain + [p] && s'.handled == s.handled && s'.queued == s.queued
    requires s'.token == if s'.output.Starting? then token else token + 1
    ensures Pipes(s', token, (s'.output, w.1 + [p]))
  {
    Regroup(s.handled, s.toMain, [p]);
  }

  lemma OutputStep(s: State, step: Step, token: nat, w: (Pump, seq<Packet>), w': (Pump, seq<Packet>))
    requires Pipes(s, token, w) && !step.MainHandles? && !step.MainSends?
    requires match step
      case OutputStarts => w' == if w.0.Starting? then (Running, w.1 + [Sync(1, token + 1)]) else w
      case OutputFailsToStart => w' == (if w.0.Starting? then Ended else w.0, w.1)
      case OutputForwards(p) => w' == (w.0, if w.0.Running? then w.1 + [p] else w.1)
      case OutputEnds => w' == if w.0.Running? then (Ended, w.1 + [Sync(0, 0)]) else w
      case OutputAborts => w' == (if w.0.Running? then Ended else w.0, w.1)
      case _ => w' == w
    ensures Pipes(Next(s, step), token, w')
  {
    var s' := Next(s, step);
    if step.OutputStarts? && s.output.Starting? { PipeGrows(s, s', token, w, Sync(1, token + 1)); }
    if step.OutputForwards? && s.output.Running? { PipeGrows(s, s', token, w, step.p); }
    if step.OutputEnds? && s.output.Running? { PipeGrows(s, s', token, w, Sync(0, 0)); }
  }

  lemma {:induction false} RunPipes(token: nat, steps: seq<Step>)
    ensures Pipes(Run(token, steps), token, Written(token, steps))
  {
    if steps != [] {
      var before, step := steps[..|steps| - 1], steps[|steps| - 1];
      RunPipes(token, before);
      assert before + [step] == steps;
      match step
      case MainHandles(replies) => MainPipes(Run(token, before), replies, token, Written(token, before));
      case MainSends(replies) => SendPipes(Run(token, before), replies, token, Written(token, before));
      case _ => OutputPipes(token, before, step);
    }
  }

  lemma {:induction false} FirstIsSync(token: nat, steps: seq<Step>)
    ensures var (pump, q) := Written(token, steps);
      && (pump.Running? ==> q != []) && (pump.Starting? ==> q == []) && (q != [] ==> q[0] == Sync(1, token + 1))
  {
    if steps != [] { FirstIsSync(token, steps[..|steps| - 1]); }
  }

  /**
   * The gate opens: in every run, once the output thread has started, the first packet of the
   * pipe to the main loop is SYNC(1, t->sync_token); the SYNCs queued for the input thread are
   * the ones the main loop has handled, in order, so this one comes first among them.
   */
  lemma GateOpens(token: nat, steps: seq<Step>)
    ensures var s := Run(token, steps);
      && s.handled + s.toMain == Written(token, steps).1
      && Syncs(s.queued) == Syncs(s.handled)
      && (s.output.Running? ==> s.handled + s.toMain != [])
      && (s.handled + s.toMain != [] ==> (s.handled + s.toMain)[0] == Sync(1, s.token))
      && (s.handled != [] ==> Sync(1, s.token) in s.queued)
  {
    var s := Run(token, steps);
    RunPipes(token, steps);
    FirstIsSync(token, steps);
    if s.handled != [] {
      assert (s.handled + s.toMain)[0] == s.handled[0];
      assert s.output != Starting;
      assert Syncs(s.handled)[0] == s.handled[0];
      SyncsAreThere(s.queued, s.handled[0]);
    }
  }

  lemma {:induction false} SyncsAreThere(q: seq<Packet>, p: Packet)
    requires p in Syncs(q)
    ensures p in q
  {
    if !(q[0].Sync? && p == q[0]) { SyncsAreThere(q[1..], p); }
  }

  lemma {:induction false} NoSyncKeeps(q: seq<Packet>, p: Packet)
    requires p in q && p.Other?
    ensures p in NoSync(q)
  {
    if p != q[0] { NoSyncKeeps(q[1..], p); }
  }

  /**
   * What passes: in every run, a packet that the input thread has read after the matching SYNC
   * and before any SYNC(0) is on the wire.
   */
  lemma OpenGatePasses(token: nat, steps: seq<Step>, j: nat, i: nat)
    requires var s := Run(token, steps);
      && |s.toIo| <= |s.queued| && j < i < |Read(s)| && Read(s)[i].Other?
      && Read(s)[j].Sync? && Read(s)[j].arg0 != 0 && Read(s)[j].arg1 == s.token
      && forall k :: 0 <= k < i ==> !(Read(s)[k].Sync? && Read(s)[k].arg0 == 0)
    ensures Read(Run(token, steps))[i] in Run(token, steps).wire
  {
    GateTheorem(token, steps);
    PassedHas(Read(Run(token, steps)), Run(token, steps).token, j, i);
  }

  lemma PassedHas(q: seq<Packet>, token: nat, j: nat, i: nat)
    requires j < i < |q| && q[i].Other? && q[j].Sync? && q[j].arg0 != 0 && q[j].arg1 == token
    requires forall k :: 0 <= k < i ==> !(q[k].Sync? && q[k].arg0 == 0)
    ensures q[i] in Passed(q, token)
  {
    var a, b := Opening(q, token), Shutting(q);
    assert a <= j && i < b;
    assert q[a + 1..b][i - a - 1] == q[i];
    NoSyncKeeps(q[a + 1..b], q[i]);
  }

  /** The main loop takes packets in order; it echoes a SYNC and queues what it has to say otherwise. */
  lemma MainAnswers(s: State, replies: seq<nat>)
    ensures s.toMain != [] ==>
      var s', p := Next(s, MainHandles(replies)), s.toMain[0];
      && s'.handled == s.handled + [p] && s'.toMain == s.toMain[1..]
      && |s'.queued| == |s.queued| + (if p.Sync? then 1 else |replies|) && s.queued <= s'.queued
      && (p.Sync? ==> s'.queued == s.queued + [p])
      && (p.Other? ==> forall i :: 0 <= i < |replies| ==> s'.queued[|s.queued| + i] == Other(replies[i]))
    ensures var s' := Next(s, MainSends(replies));
      && |s'.queued| == |s.queued| + |replies| && s.queued <= s'.queued
      && forall i :: 0 <= i < |replies| ==> s'.queued[|s.queued| + i] == Other(replies[i])
  {
  }

  /** A run: start, echo, one packet from the main loop, and it is on the wire. */
  lemma FirstPacketPasses()
    ensures var s2 := Next(Next(Init(0), OutputStarts), MainHandles([]));
      var s4 := Next(Next(s2, InputReads), MainSends([7]));
      Next(s4, InputReads).wire == [Other(7)]
  {
    var s1 := Next(Init(0), OutputStarts);
    assert s1.toMain == [Sync(1, 1)];
    var s2 := Next(s1, MainHandles([]));
    assert s2.toIo == [Sync(1, 1)];
    var s3 := Next(s2, InputReads);
    assert s3.active && s3.toIo == [];
    var s4 := Next(s3, MainSends([7]));
    assert s4.toIo == [Other(7)];
  }
}
