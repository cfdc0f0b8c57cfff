/**
 * The compact fixed-priority FIFO real-time class of patch 0019: one FIFO per priority,
 * a bitmap with a delimiter bit, a running count and a cached highest priority.
 */
module RtSched {
  import opened Common
  import opened Fifo

  const MAX_RT_PRIO: nat := 100

  datatype Task = Task(prio: nat, onRq: bool)

  datatype Rq = Rq(
    tasks: map<nat, Task>, bitmap: seq<bool>, queue: seq<seq<nat>>,
    rtNrRunning: int, highest: nat, rtQueued: bool, nrRunning: int,
    donor: Option<nat>, resched: bool)

  predicate Shaped(rq: Rq) {
    && |rq.bitmap| == MAX_RT_PRIO + 1 && |rq.queue| == MAX_RT_PRIO
    && forall p :: p in rq.tasks ==> rq.tasks[p].prio < MAX_RT_PRIO
  }

  predicate On(rq: Rq, p: nat) { p in rq.tasks && rq.tasks[p].onRq }

  /** init_rt_rq */
  function Empty(): Rq {
    Rq(map[], seq(MAX_RT_PRIO, _ => false) + [true], seq(MAX_RT_PRIO, _ => []),
       0, MAX_RT_PRIO - 1, false, 0, None, false)
  }

  function Enqueue(rq: Rq, p: nat): (r: Rq)
    requires Shaped(rq) && p in rq.tasks
    ensures Shaped(r) && r.tasks.Keys == rq.tasks.Keys && r.donor == rq.donor && r.resched == rq.resched
  {
    if rq.tasks[p].onRq then rq else
    var prio := rq.tasks[p].prio;
    rq.(queue := rq.queue[prio := rq.queue[prio] + [p]],
        bitmap := rq.bitmap[prio := true],
        rtNrRunning := rq.rtNrRunning + 1,
        highest := if prio < rq.highest then prio else rq.highest,
        rtQueued := true,
        nrRunning := rq.nrRunning + 1,
        tasks := rq.tasks[p := rq.tasks[p].(onRq := true)])
  }

  function Dequeue(rq: Rq, p: nat): (r: Rq)
    requires Shaped(rq) && p in rq.tasks
    ensures Shaped(r) && r.tasks.Keys == rq.tasks.Keys && r.donor == rq.donor && r.resched == rq.resched
  {
    if !rq.tasks[p].onRq then rq else
    var prio := rq.tasks[p].prio;
    var q := Without(rq.queue[prio], p);
    var bitmap := if q == [] then rq.bitmap[prio := false] else rq.bitmap;
    var next := FirstSet(bitmap, MAX_RT_PRIO);
    rq.(queue := rq.queue[prio := q],
        bitmap := bitmap,
        rtNrRunning := rq.rtNrRunning - 1,
        tasks := rq.tasks[p := rq.tasks[p].(onRq := false)],
        nrRunning := rq.nrRunning - 1,
        highest := if next < MAX_RT_PRIO then next else MAX_RT_PRIO - 1,
        rtQueued := if rq.rtNrRunning - 1 == 0 then false else rq.rtQueued)
  }

  function Yield(rq: Rq): (r: Rq)
    requires Shaped(rq) && rq.donor.Some? && rq.donor.value in rq.tasks
    ensures Shaped(r)
  {
    var p := rq.donor.value;
    var prio := rq.tasks[p].prio;
    var q := rq.queue[prio];
    if rq.tasks[p].onRq && q != [] && q[|q| - 1] != p
    then rq.(queue := rq.queue[prio := Without(q, p) + [p]]) else rq
  }

  function WakeupPreempt(rq: Rq, p: nat): (r: Rq)
    requires Shaped(rq) && p in rq.tasks
    ensures Shaped(r)
  {
    if rq.donor.Some? && rq.donor.value in rq.tasks && rq.tasks[p].prio < rq.tasks[rq.donor.value].prio
    then rq.(resched := true) else rq
  }

  function Pick(rq: Rq): Option<nat>
    requires Shaped(rq)
  {
    if rq.rtNrRunning == 0 then None else
    var prio := FirstSet(rq.bitmap, MAX_RT_PRIO);
    if prio >= MAX_RT_PRIO || rq.queue[prio] == [] then None else Some(rq.queue[prio][0])
  }

  function PrioChanged(rq: Rq, p: nat): (r: Rq)
    requires Shaped(rq) && p in rq.tasks
    ensures Shaped(r)
  {
    if !rq.tasks[p].onRq then rq
    else if rq.donor == Some(p) then
      (if rq.highest < rq.tasks[p].prio then rq.(resched := true) else rq)
    else WakeupPreempt(rq, p)
  }

  // ---- the index agrees with the queues ----

  ghost predicate LevelOk(rq: Rq, b: nat)
    requires Shaped(rq) && b < MAX_RT_PRIO
  {
    && (rq.bitmap[b] <==> rq.queue[b] != [])
    && Distinct(rq.queue[b])
    && forall p :: p in rq.queue[b] ==> On(rq, p) && rq.tasks[p].prio == b
  }

  /** `highest` is the least occupied priority, 99 when nothing is queued. */
  ghost predicate HighestOk(rq: Rq)
    requires Shaped(rq)
  {
    && rq.highest < MAX_RT_PRIO
    && (forall b :: 0 <= b < rq.highest ==> rq.queue[b] == [])
    && (rq.queue[rq.highest] != [] || (rq.highest == MAX_RT_PRIO - 1 && Total(rq.queue) == 0))
  }

  ghost predicate Consistent(rq: Rq) {
    && Shaped(rq)
    && rq.bitmap[MAX_RT_PRIO]
    && (forall b :: 0 <= b < MAX_RT_PRIO ==> LevelOk(rq, b))
    && (forall p :: On(rq, p) ==> p in rq.queue[rq.tasks[p].prio])
    && rq.rtNrRunning == rq.nrRunning == Total(rq.queue)
    && (rq.rtQueued <==> Total(rq.queue) != 0)
    && HighestOk(rq)
  }

  lemma EnqueueHighest(rq: Rq, p: nat)
    requires Consistent(rq) && p in rq.tasks && !rq.tasks[p].onRq
    ensures HighestOk(Enqueue(rq, p))
  {
    var prio := rq.tasks[p].prio;
    TotalUpdate(rq.queue, prio, rq.queue[prio] + [p]);
    TotalZero(rq.queue);
  }

  lemma EnqueueLevel(rq: Rq, p: nat, c: nat)
    requires Consistent(rq) && p in rq.tasks && !rq.tasks[p].onRq && c < MAX_RT_PRIO
    ensures LevelOk(Enqueue(rq, p), c)
  {
    assert LevelOk(rq, c);
  }

  lemma EnqueueConsistent(rq: Rq, p: nat)
    requires Consistent(rq) && p in rq.tasks
    ensures Consistent(Enqueue(rq, p)) && On(Enqueue(rq, p), p)
    ensures forall u :: u != p ==> (On(Enqueue(rq, p), u) <==> On(rq, u))
  {
    if !rq.tasks[p].onRq {
      var prio := rq.tasks[p].prio;
      TotalUpdate(rq.queue, prio, rq.queue[prio] + [p]);
      EnqueueHighest(rq, p);
      forall c | 0 <= c < MAX_RT_PRIO ensures LevelOk(Enqueue(rq, p), c) { EnqueueLevel(rq, p, c); }
    }
  }

  lemma DequeueHighest(rq: Rq, p: nat)
    requires Consistent(rq) && On(rq, p)
    requires var r := Dequeue(rq, p); forall b :: 0 <= b < MAX_RT_PRIO ==> (r.bitmap[b] <==> r.queue[b] != [])
    ensures HighestOk(Dequeue(rq, p))
  {
    var r := Dequeue(rq, p);
    var next := FirstSet(r.bitmap, MAX_RT_PRIO);
    if next == MAX_RT_PRIO {
      TotalZero(r.queue);
      forall b | 0 <= b < MAX_RT_PRIO ensures r.queue[b] == [] { assert !r.bitmap[b]; }
    } else {
      forall b | 0 <= b < next ensures r.queue[b] == [] { assert !r.bitmap[b]; }
    }
  }

  lemma DequeueLevel(rq: Rq, p: nat, c: nat)
    requires Consistent(rq) && On(rq, p) && c < MAX_RT_PRIO
    ensures LevelOk(Dequeue(rq, p), c)
  {
    assert LevelOk(rq, c);
    WithoutDistinct(rq.queue[c], p);
  }

  lemma DequeueConsistent(rq: Rq, p: nat)
    requires Consistent(rq) && p in rq.tasks
    ensures Consistent(Dequeue(rq, p)) && !On(Dequeue(rq, p), p)
    ensures forall u :: u != p ==> (On(Dequeue(rq, p), u) <==> On(rq, u))
  {
    if rq.tasks[p].onRq {
      var prio := rq.tasks[p].prio;
      assert LevelOk(rq, prio);
      WithoutDistinct(rq.queue[prio], p);
      TotalUpdate(rq.queue, prio, Without(rq.queue[prio], p));
      var r := Dequeue(rq, p);
      forall c | 0 <= c < MAX_RT_PRIO ensures LevelOk(r, c) { DequeueLevel(rq, p, c); }
      forall b | 0 <= b < MAX_RT_PRIO ensures r.bitmap[b] <==> r.queue[b] != [] { assert LevelOk(r, b); }
      DequeueHighest(rq, p);
    }
  }

  lemma YieldLevel(rq: Rq, p: nat, c: nat)
    requires Consistent(rq) && On(rq, p) && c < MAX_RT_PRIO
    ensures var prio := rq.tasks[p].prio;
      LevelOk(rq.(queue := rq.queue[prio := Without(rq.queue[prio], p) + [p]]), c)
  {
    assert LevelOk(rq, c);
    if c == rq.tasks[p].prio { AtTailDistinct(rq.queue[c], p); }
  }

  lemma YieldConsistent(rq: Rq)
    requires Consistent(rq) && rq.donor.Some? && rq.donor.value in rq.tasks
    ensures Consistent(Yield(rq))
  {
    var p := rq.donor.value;
    if rq.tasks[p].onRq && Yield(rq) != rq {
      var prio := rq.tasks[p].prio;
      TotalUpdate(rq.queue, prio, Without(rq.queue[prio], p) + [p]);
      forall c | 0 <= c < MAX_RT_PRIO ensures LevelOk(Yield(rq), c) { YieldLevel(rq, p, c); }
    }
  }

  lemma SameIndex(rq: Rq, rq': Rq)
    requires Consistent(rq)
    requires rq' == rq.(donor := rq'.donor, resched := rq'.resched)
    ensures Consistent(rq')
  {
    forall b | 0 <= b < MAX_RT_PRIO ensures LevelOk(rq', b) { assert LevelOk(rq, b); }
  }

  lemma RetuneConsistent(rq: Rq, p: nat, t: Task)
    requires Consistent(rq) && !On(rq, p) && !t.onRq && t.prio < MAX_RT_PRIO
    ensures Consistent(rq.(tasks := rq.tasks[p := t]))
  {
    var rq' := rq.(tasks := rq.tasks[p := t]);
    forall b | 0 <= b < MAX_RT_PRIO ensures LevelOk(rq', b) { assert LevelOk(rq, b); }
  }

  /** The cached priority is exact: it beats prio iff some queued task does. */
  lemma HighestIsExact(rq: Rq, prio: nat)
    requires Consistent(rq) && prio < MAX_RT_PRIO
    ensures rq.highest < prio <==> exists u :: On(rq, u) && rq.tasks[u].prio < prio
  {
    assert LevelOk(rq, rq.highest);
    TotalZero(rq.queue);
    if rq.highest < prio { assert On(rq, rq.queue[rq.highest][0]); }
    if u :| On(rq, u) && rq.tasks[u].prio < prio { assert rq.queue[rq.tasks[u].prio] != []; }
  }

  /** pick returns the head of the best level, and nothing iff nothing is queued. */
  lemma PickIsBest(rq: Rq)
    requires Consistent(rq)
    ensures Pick(rq).None? <==> rq.rtNrRunning == 0
    ensures Pick(rq).None? ==> forall u :: !On(rq, u)
    ensures Pick(rq).Some? ==>
      var p := Pick(rq).value;
      && On(rq, p) && rq.queue[rq.tasks[p].prio][0] == p && rq.tasks[p].prio == rq.highest
      && (forall u :: On(rq, u) ==> rq.tasks[p].prio <= rq.tasks[u].prio)
  {
    TotalZero(rq.queue);
    if rq.rtNrRunning != 0 {
      assert LevelOk(rq, rq.highest);
      forall b | 0 <= b < rq.highest ensures !rq.bitmap[b] { assert LevelOk(rq, b); }
      FirstSetIs(rq.bitmap, MAX_RT_PRIO, rq.highest);
      forall u | On(rq, u) ensures rq.highest <= rq.tasks[u].prio {
        assert rq.queue[rq.tasks[u].prio] != [];
      }
    }
  }

  // ---- no unannounced priority inversion, over every run ----

  datatype Op =
    | Fork(p: nat, prio: nat)
    | Wake(p: nat)
    | Reprio(p: nat, prio: nat)
    | YieldCpu
    | Resched
    | Sleep
    | Remove(p: nat)

  function Schedule(rq: Rq): (r: Rq)
    requires Shaped(rq)
    ensures Shaped(r)
  {
    rq.(donor := Pick(rq), resched := false)
  }

  function Step(rq: Rq, op: Op): (r: Rq)
    requires Shaped(rq)
    ensures Shaped(r)
  {
    match op
    case Fork(p, prio) =>
      if p in rq.tasks || prio >= MAX_RT_PRIO then rq else rq.(tasks := rq.tasks[p := Task(prio, false)])
    case Wake(p) =>
      if p !in rq.tasks || rq.tasks[p].onRq then rq else WakeupPreempt(Enqueue(rq, p), p)
    case Reprio(p, prio) =>
      if p !in rq.tasks || prio >= MAX_RT_PRIO then rq
      else if !rq.tasks[p].onRq then rq.(tasks := rq.tasks[p := Task(prio, false)])
      else
        var rq1 := Dequeue(rq, p);
        PrioChanged(Enqueue(rq1.(tasks := rq1.tasks[p := Task(prio, false)]), p), p)
    case YieldCpu => if rq.donor.Some? && rq.donor.value in rq.tasks then Yield(rq) else rq
    case Resched => Schedule(rq)
    case Sleep =>
      if rq.donor.Some? && rq.donor.value in rq.tasks then Schedule(Dequeue(rq, rq.donor.value)) else rq
    case Remove(p) => if p in rq.tasks && rq.donor != Some(p) then Dequeue(rq, p) else rq
  }

  ghost predicate NoInversion(rq: Rq) {
    rq.donor.Some? ==>
      && On(rq, rq.donor.value)
      && ((exists u :: On(rq, u) && rq.tasks[u].prio < rq.tasks[rq.donor.value].prio) ==> rq.resched)
  }

  ghost predicate Inv(rq: Rq) { Consistent(rq) && NoInversion(rq) }

  lemma ScheduleInv(rq: Rq)
    requires Consistent(rq)
    ensures Inv(Schedule(rq))
  {
    PickIsBest(rq);
    SameIndex(rq, Schedule(rq));
  }

  lemma PrioChangedInv(rq: Rq, rq3: Rq, p: nat)
    requires NoInversion(rq) && Consistent(rq3) && On(rq3, p)
    requires rq3.donor == rq.donor && rq3.resched == rq.resched
    requires forall u :: u != p ==> (On(rq3, u) <==> On(rq, u))
    requires forall u :: u != p && On(rq, u) ==> rq3.tasks[u].prio == rq.tasks[u].prio
    ensures Inv(PrioChanged(rq3, p))
  {
    HighestIsExact(rq3, rq3.tasks[p].prio);
    SameIndex(rq3, PrioChanged(rq3, p));
  }

  lemma ReprioInv(rq: Rq, p: nat, prio: nat)
    requires Inv(rq) && On(rq, p) && prio < MAX_RT_PRIO
    ensures Inv(Step(rq, Reprio(p, prio)))
  {
    DequeueConsistent(rq, p);
    var rq1 := Dequeue(rq, p);
    RetuneConsistent(rq1, p, Task(prio, false));
    var rq2 := rq1.(tasks := rq1.tasks[p := Task(prio, false)]);
    EnqueueConsistent(rq2, p);
    PrioChangedInv(rq, Enqueue(rq2, p), p);
  }

  lemma WakeInv(rq: Rq, p: nat)
    requires Inv(rq)
    ensures Inv(Step(rq, Wake(p)))
  {
    if p in rq.tasks && !rq.tasks[p].onRq {
      EnqueueConsistent(rq, p);
      SameIndex(Enqueue(rq, p), WakeupPreempt(Enqueue(rq, p), p));
    }
  }

  lemma SleepInv(rq: Rq)
    requires Inv(rq)
    ensures Inv(Step(rq, Sleep))
  {
    if rq.donor.Some? {
      DequeueConsistent(rq, rq.donor.value);
      ScheduleInv(Dequeue(rq, rq.donor.value));
    }
  }

  lemma YieldInv(rq: Rq)
    requires Inv(rq)
    ensures Inv(Step(rq, YieldCpu))
  {
    if rq.donor.Some? { YieldConsistent(rq); }
  }

  lemma StepInv(rq: Rq, op: Op)
    requires Inv(rq)
    ensures Inv(Step(rq, op))
  {
    match op
    case Fork(p, prio) =>
      if p !in rq.tasks && prio < MAX_RT_PRIO { RetuneConsistent(rq, p, Task(prio, false)); }
    case Wake(p) => WakeInv(rq, p);
    case Reprio(p, prio) =>
      if p in rq.tasks && prio < MAX_RT_PRIO {
        if rq.tasks[p].onRq { ReprioInv(rq, p, prio); } else { RetuneConsistent(rq, p, Task(prio, false)); }
      }
    case YieldCpu => YieldInv(rq);
    case Resched => ScheduleInv(rq);
    case Sleep => SleepInv(rq);
    case Remove(p) => RemoveInv(rq, p);
  }

  lemma RemoveInv(rq: Rq, p: nat)
    requires Inv(rq)
    ensures Inv(Step(rq, Remove(p)))
  {
    if p in rq.tasks { DequeueConsistent(rq, p); }
  }

  function Run(ops: seq<Op>): (rq: Rq)
    ensures Shaped(rq)
  {
    if ops == [] then Empty() else Step(Run(ops[..|ops| - 1]), ops[|ops| - 1])
  }

  lemma EmptyConsistent()
    ensures Consistent(Empty())
  {
    TotalZero(Empty().queue);
  }

  lemma {:induction false} RunInv(ops: seq<Op>)
    ensures Consistent(Run(ops)) && NoInversion(Run(ops))
  {
    if ops == [] {
      EmptyConsistent();
    } else {
      RunInv(ops[..|ops| - 1]);
      StepInv(Run(ops[..|ops| - 1]), ops[|ops| - 1]);
    }
  }

  // ---- FIFO order within a priority ----

  predicate Moves(rq: Rq, op: Op, u: nat) {
    match op
    case Reprio(p, _) => p == u
    case Remove(p) => p == u
    case YieldCpu => rq.donor == Some(u)
    case Sleep => rq.donor == Some(u)
    case _ => false
  }

  lemma AheadDequeue(rq: Rq, p: nat, b: nat, u: nat, v: nat)
    requires Consistent(rq) && p in rq.tasks && p != u && u != v && b < MAX_RT_PRIO && Ahead(rq.queue[b], u, v)
    ensures Ahead(Dequeue(rq, p).queue[b], u, v)
  {
    assert LevelOk(rq, b);
    AheadWithout(rq.queue[b], u, v, p);
  }

  lemma AheadEnqueue(rq: Rq, p: nat, b: nat, u: nat, v: nat)
    requires Shaped(rq) && p in rq.tasks && p != u && b < MAX_RT_PRIO && Ahead(rq.queue[b], u, v)
    ensures Ahead(Enqueue(rq, p).queue[b], u, v)
  {
    AheadAppend(rq.queue[b], u, v, p);
  }

  lemma AheadReprio(rq: Rq, p: nat, prio: nat, b: nat, u: nat, v: nat)
    requires Consistent(rq) && On(rq, p) && p != u && u != v && b < MAX_RT_PRIO && Ahead(rq.queue[b], u, v)
    ensures Ahead(Step(rq, Reprio(p, prio)).queue[b], u, v)
  {
    var rq1 := Dequeue(rq, p);
    AheadDequeue(rq, p, b, u, v);
    if prio < MAX_RT_PRIO {
      var rq2 := rq1.(tasks := rq1.tasks[p := Task(prio, false)]);
      AheadEnqueue(rq2, p, b, u, v);
      assert Step(rq, Reprio(p, prio)).queue == Enqueue(rq2, p).queue;
    }
  }

  lemma AheadYield(rq: Rq, b: nat, u: nat, v: nat)
    requires Inv(rq) && b < MAX_RT_PRIO && u != v && Ahead(rq.queue[b], u, v) && rq.donor != Some(u)
    ensures Ahead(Step(rq, YieldCpu).queue[b], u, v)
  {
    assert LevelOk(rq, b);
    if rq.donor.Some? {
      AheadWithout(rq.queue[b], u, v, rq.donor.value);
      AheadAppend(Without(rq.queue[b], rq.donor.value), u, v, rq.donor.value);
    }
  }

  /** No overtaking: whatever happens to others, they stay behind u until u itself moves. */
  lemma AheadStays(rq: Rq, op: Op, b: nat, u: nat, v: nat)
    requires Inv(rq) && b < MAX_RT_PRIO && u != v && Ahead(rq.queue[b], u, v) && !Moves(rq, op, u)
    ensures Ahead(Step(rq, op).queue[b], u, v)
  {
    assert LevelOk(rq, b);
    match op
    case Wake(p) => if p in rq.tasks && !rq.tasks[p].onRq { AheadAppend(rq.queue[b], u, v, p); }
    case Reprio(p, prio) => if On(rq, p) { AheadReprio(rq, p, prio, b, u, v); }
    case YieldCpu => AheadYield(rq, b, u, v);
    case Sleep => if rq.donor.Some? { AheadDequeue(rq, rq.donor.value, b, u, v); }
    case Remove(p) => if p in rq.tasks { AheadDequeue(rq, p, b, u, v); }
    case _ =>
  }

  function Continue(rq: Rq, ops: seq<Op>): (r: Rq)
    requires Shaped(rq)
    ensures Shaped(r)
    decreases |ops|
  {
    if ops == [] then rq else Continue(Step(rq, ops[0]), ops[1..])
  }

  predicate NeverMoves(rq: Rq, ops: seq<Op>, u: nat)
    requires Shaped(rq)
    decreases |ops|
  {
    ops == [] || (!Moves(rq, ops[0], u) && NeverMoves(Step(rq, ops[0]), ops[1..], u))
  }

  /** The same over any run: later arrivals of the same priority never get ahead of u. */
  lemma {:induction false} NoOvertaking(rq: Rq, ops: seq<Op>, b: nat, u: nat, v: nat)
    requires Inv(rq) && b < MAX_RT_PRIO && u != v && Ahead(rq.queue[b], u, v) && NeverMoves(rq, ops, u)
    ensures Ahead(Continue(rq, ops).queue[b], u, v)
    decreases |ops|
  {
    if ops != [] {
      AheadStays(rq, ops[0], b, u, v);
      StepInv(rq, ops[0]);
      NoOvertaking(Step(rq, ops[0]), ops[1..], b, u, v);
    }
  }

  // ---- each operation does what it is for ----

  /** A woken task is queued, last at its priority, and announced exactly if it outranks the running one. */
  lemma WakeTakesEffect(rq: Rq, p: nat)
    requires Inv(rq) && p in rq.tasks && !rq.tasks[p].onRq
    ensures var r, b := Step(rq, Wake(p)), rq.tasks[p].prio;
      && On(r, p) && r.queue[b] == rq.queue[b] + [p] && r.rtNrRunning == rq.rtNrRunning + 1
      && (r.resched <==> rq.resched || (rq.donor.Some? && rq.tasks[p].prio < rq.tasks[rq.donor.value].prio))
  {
  }

  /** A task that sleeps or is removed is queued no more; a sleeping one is replaced by the best that is left. */
  lemma LeavingTakesEffect(rq: Rq, p: nat)
    requires Inv(rq) && On(rq, p)
    ensures rq.donor != Some(p) ==> !On(Step(rq, Remove(p)), p) && Step(rq, Remove(p)).donor == rq.donor
    ensures rq.donor == Some(p) ==>
      var r := Step(rq, Sleep);
      !On(r, p) && r.donor != Some(p) && !r.resched && (r.donor.None? <==> forall u :: !On(r, u))
  {
    DequeueConsistent(rq, p);
    if rq.donor == Some(p) {
      ScheduleRunsBest(Dequeue(rq, p));
      assert forall u :: On(Step(rq, Sleep), u) <==> On(Dequeue(rq, p), u);
    }
  }

  /** A bracketed change of priority changes the priority and leaves the task queued, or not, as it was. */
  lemma ReprioTakesEffect(rq: Rq, p: nat, prio: nat)
    requires Inv(rq) && p in rq.tasks && prio < 100
    ensures var r := Step(rq, Reprio(p, prio));
      p in r.tasks && r.tasks[p].prio == prio && (On(r, p) <==> On(rq, p)) && r.donor == rq.donor
  {
    if On(rq, p) {
      var rq1 := Dequeue(rq, p);
      var rq2 := rq1.(tasks := rq1.tasks[p := Task(prio, false)]);
      DequeueConsistent(rq, p);
      RetuneConsistent(rq1, p, Task(prio, false));
      EnqueueKeepsPrio(rq2, p);
      PrioChangedKeeps(Enqueue(rq2, p), p);
    }
  }

  lemma EnqueueKeepsPrio(rq: Rq, p: nat)
    requires Shaped(rq) && p in rq.tasks
    ensures On(Enqueue(rq, p), p) && Enqueue(rq, p).tasks[p].prio == rq.tasks[p].prio && Enqueue(rq, p).donor == rq.donor
  {
  }

  lemma PrioChangedKeeps(rq: Rq, p: nat)
    requires Shaped(rq) && p in rq.tasks
    ensures PrioChanged(rq, p).tasks == rq.tasks && PrioChanged(rq, p).donor == rq.donor
  {
  }

  // ---- what each hook does, told from the priorities ----

  /** After a yield at a priority with two or more tasks, the next pick of that priority is another task. */
  lemma YieldGivesWay(rq: Rq)
    requires Inv(rq) && rq.donor.Some? && |rq.queue[rq.tasks[rq.donor.value].prio]| >= 2
    ensures var p, q' := rq.donor.value, Yield(rq).queue[rq.tasks[rq.donor.value].prio];
      q' != [] && q'[0] != p && q'[|q'| - 1] == p && (rq.highest == rq.tasks[p].prio ==> Pick(Yield(rq)) == Some(q'[0]))
  {
    var p := rq.donor.value;
    var b := rq.tasks[p].prio;
    assert LevelOk(rq, b);
    WithoutDistinct(rq.queue[b], p);
    if rq.highest == b {
      YieldConsistent(rq);
      PickIsHead(Yield(rq), b);
    }
  }

  lemma PickIsHead(rq: Rq, b: nat)
    requires Consistent(rq) && b < MAX_RT_PRIO && rq.highest == b && rq.queue[b] != []
    ensures Pick(rq) == Some(rq.queue[b][0])
  {
    assert LevelOk(rq, b);
    TotalZero(rq.queue);
    forall c | 0 <= c < b ensures !rq.bitmap[c] { assert LevelOk(rq, c); }
    FirstSetIs(rq.bitmap, MAX_RT_PRIO, b);
  }

  /** The new priority of a queued task p: some task is now above the running p, or p above the running one. */
  ghost predicate Unsettles(rq: Rq, p: nat)
    requires p in rq.tasks && (rq.donor.Some? ==> rq.donor.value in rq.tasks)
  {
    && rq.tasks[p].onRq && rq.donor.Some?
    && if rq.donor.value == p then exists u :: On(rq, u) && rq.tasks[u].prio < rq.tasks[p].prio
       else rq.tasks[p].prio < rq.tasks[rq.donor.value].prio
  }

  lemma PrioChangedIsExact(rq: Rq, p: nat)
    requires Consistent(rq) && p in rq.tasks && (rq.donor.Some? ==> rq.donor.value in rq.tasks)
    ensures PrioChanged(rq, p) == rq.(resched := rq.resched || Unsettles(rq, p))
  {
    HighestIsExact(rq, rq.tasks[p].prio);
  }

  /** Scheduling runs the first of the tasks that nobody outranks and leaves no reschedule pending. */
  lemma ScheduleRunsBest(rq: Rq)
    requires Consistent(rq)
    ensures var r := Schedule(rq);
      && r == rq.(donor := r.donor, resched := false) && (r.donor.None? <==> forall u :: !On(rq, u))
      && (r.donor.Some? ==>
            && On(rq, r.donor.value) && rq.queue[rq.tasks[r.donor.value].prio][0] == r.donor.value
            && forall u :: On(rq, u) ==> rq.tasks[r.donor.value].prio <= rq.tasks[u].prio)
    ensures (forall u :: !On(rq, u)) ==> rq.highest == 99
  {
    PickIsBest(rq);
    TotalZero(rq.queue);
  }

  /** The run queue with its fields updated in place, as in the patch. */
  class RtRq {
    var tasks: map<nat, Task>
    var bitmap: seq<bool>
    var queue: seq<seq<nat>>
    var rtNrRunning: int
    var highest: nat
    var rtQueued: bool
    var nrRunning: int
    var donor: Option<nat>
    var resched: bool

    function Value(): Rq
      reads this
    {
      Rq(tasks, bitmap, queue, rtNrRunning, highest, rtQueued, nrRunning, donor, resched)
    }

    /** init_rt_rq, on memory with arbitrary contents. */
    constructor (bits: seq<bool>, lists: seq<seq<nat>>)
      requires |bits| == MAX_RT_PRIO + 1 && |lists| == MAX_RT_PRIO
      ensures Value() == Empty()
    {
      tasks, bitmap, queue := map[], bits, lists;
      rtNrRunning, highest, rtQueued, nrRunning, donor, resched := 0, MAX_RT_PRIO - 1, false, 0, None, false;
      new;
      var i := 0;
      while i < MAX_RT_PRIO
        invariant 0 <= i <= MAX_RT_PRIO && |bitmap| == MAX_RT_PRIO + 1 && |queue| == MAX_RT_PRIO
        invariant forall j :: 0 <= j < i ==> !bitmap[j] && queue[j] == []
        invariant Value() == Empty().(bitmap := bitmap, queue := queue)
      {
        queue := queue[i := []];
        bitmap := bitmap[i := false];
        i := i + 1;
      }
      bitmap := bitmap[MAX_RT_PRIO := true];
      assert bitmap == Empty().bitmap;
      assert queue == Empty().queue;
    }

    method Link(p: nat)
      requires Shaped(Value()) && p in tasks && !tasks[p].onRq
      modifies this
      ensures Value() == Enqueue(old(Value()), p)
    {
      var prio := tasks[p].prio;
      queue := queue[prio := queue[prio] + [p]];
      bitmap := bitmap[prio := true];
      rtNrRunning := rtNrRunning + 1;
      if prio < highest {
        highest := prio;
      }
      rtQueued := true;
      nrRunning := nrRunning + 1;
      tasks := tasks[p := tasks[p].(onRq := true)];
    }

    /** enqueue_task_rt */
    method EnqueueTask(p: nat)
      requires Shaped(Value()) && p in tasks
      modifies this
      ensures Value() == Enqueue(old(Value()), p)
      ensures old(Consistent(Value())) ==> Consistent(Value())
    {
      if Consistent(Value()) { EnqueueConsistent(Value(), p); }
      if tasks[p].onRq {
        return;
      }
      Link(p);
    }

    /** list_del_init, the bitmap, and the new highest priority, 99 when nothing is left. */
    method Unlink(p: nat)
      requires Shaped(Value()) && p in tasks
      modifies this`queue, this`bitmap, this`highest
      ensures var prio := tasks[p].prio;
        && queue == old(queue)[prio := Without(old(queue)[prio], p)]
        && bitmap == (if queue[prio] == [] then old(bitmap)[prio := false] else old(bitmap))
        && highest == (var next := FirstSet(bitmap, MAX_RT_PRIO); if next < MAX_RT_PRIO then next else MAX_RT_PRIO - 1)
    {
      var prio := tasks[p].prio;
      queue := queue[prio := Without(queue[prio], p)];
      if queue[prio] == [] {
        bitmap := bitmap[prio := false];
      }
      var next := FindFirstBit(bitmap, MAX_RT_PRIO);
      highest := if next < MAX_RT_PRIO then next else MAX_RT_PRIO - 1;
    }

    method Remove(p: nat)
      requires Shaped(Value()) && p in tasks && tasks[p].onRq
      modifies this
      ensures Value() == Dequeue(old(Value()), p)
    {
      ghost var r := Dequeue(Value(), p);
      Unlink(p);
      assert queue == r.queue && bitmap == r.bitmap && highest == r.highest;
      rtNrRunning, nrRunning := rtNrRunning - 1, nrRunning - 1;
      tasks := tasks[p := tasks[p].(onRq := false)];
      if rtNrRunning == 0 {
        rtQueued := false;
      }
    }

    /** dequeue_task_rt */
    method DequeueTask(p: nat) returns (done: bool)
      requires Shaped(Value()) && p in tasks
      modifies this
      ensures Value() == Dequeue(old(Value()), p)
      ensures done == old(tasks[p].onRq)
      ensures old(Consistent(Value())) ==> Consistent(Value())
    {
      if Consistent(Value()) { DequeueConsistent(Value(), p); }
      if !tasks[p].onRq {
        return false;
      }
      Remove(p);
      done := true;
    }

    method YieldTask()
      requires Shaped(Value()) && donor.Some? && donor.value in tasks
      modifies this`queue
      ensures Value() == Yield(old(Value()))
      ensures old(Consistent(Value())) ==> Consistent(Value())
    {
      if Consistent(Value()) { YieldConsistent(Value()); }
      var p := donor.value;
      var prio := tasks[p].prio;
      if tasks[p].onRq && queue[prio] != [] && queue[prio][|queue[prio]| - 1] != p {
        queue := queue[prio := Without(queue[prio], p)];
        queue := queue[prio := queue[prio] + [p]];
      }
    }

    /** wakeup_preempt_rt, after the enqueue of p. */
    method WakeupPreemptTask(p: nat)
      requires Shaped(Value()) && p in tasks && (donor.Some? ==> donor.value in tasks)
      modifies this`resched
      ensures Value() == WakeupPreempt(old(Value()), p)
      ensures resched <==> old(resched) || (donor.Some? && tasks[p].prio < tasks[donor.value].prio)
    {
      if donor.Some? && tasks[p].prio < tasks[donor.value].prio { resched := true; }
    }

    /** Picking the next task to run and switching to it. */
    method PickNext()
      requires Consistent(Value())
      modifies this`donor, this`resched
      ensures Value() == Schedule(old(Value())) && Inv(Value())
    {
      ScheduleInv(Value());
      donor := PickTask();
      resched := false;
    }

    /** prio_changed_rt */
    method PrioChange(p: nat)
      requires Shaped(Value()) && p in tasks && (donor.Some? ==> donor.value in tasks)
      modifies this`resched
      ensures Value() == PrioChanged(old(Value()), p)
    {
      if !tasks[p].onRq {
        return;
      }
      if donor == Some(p) {
        if highest < tasks[p].prio { resched := true; }
      } else if donor.Some? && tasks[p].prio < tasks[donor.value].prio {
        resched := true;
      }
    }

    method PickTask() returns (p: Option<nat>)
      requires Consistent(Value())
      ensures p == Pick(Value())
      ensures p.None? <==> rtNrRunning == 0
      ensures p.Some? ==>
        && On(Value(), p.value) && tasks[p.value].prio == highest
        && forall u :: On(Value(), u) ==> tasks[p.value].prio <= tasks[u].prio
    {
      PickIsBest(Value());
      if rtNrRunning == 0 {
        return None;
      }
      var prio := FindFirstBit(bitmap, MAX_RT_PRIO);
      if prio >= MAX_RT_PRIO {
        return None;
      }
      assert LevelOk(Value(), prio);
      p := Some(queue[prio][0]);
    }
  }
}
