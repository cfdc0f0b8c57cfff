/**
 * The compact O(1) SCHED_NORMAL class of patch 0014: three FIFO buckets, a bitmap and
 * counters, slice rotation on the tick, preemption at wakeup and on priority change.
 * core.c is outside the model; its protocol (dequeue, modify, enqueue around a priority
 * change; wakeup_preempt after enqueue; set_next_task when another task is picked) is
 * written out in Step.
 */
module FairSched {
  import opened Common
  import opened Fifo
  import opened Rotation

  const NR_TINY_PRIO: nat := 3
  const HIGH: nat := 0
  const NORMAL: nat := 1
  const LOW: nat := 2
  const NICE_0_PRIO: int := 120  // NICE_TO_PRIO(0)

  /** `linked` is !list_empty(&se->group_node). */
  datatype Task = Task(idle: bool, staticPrio: int, slice: nat, linked: bool)

  /** `nrRunning` is this class's contribution to rq->nr_running; `hz` is HZ. */
  datatype Rq = Rq(
    hz: nat, tasks: map<nat, Task>, active: seq<bool>, queue: seq<seq<nat>>,
    nrQueued: int, hNrQueued: int, nrRunning: int, donor: Option<nat>, resched: bool)

  function DefaultSlice(hz: nat): nat { hz / 50 + 1 }

  /** tiny_prio_of */
  function Bucket(t: Task): (b: nat)
    ensures b < NR_TINY_PRIO
  {
    if t.idle then LOW
    else if t.staticPrio < NICE_0_PRIO then HIGH
    else if t.staticPrio > NICE_0_PRIO then LOW
    else NORMAL
  }

  /**
   * Task t must run before task u, told from policy and nice level: a task with negative nice
   * before any other, a task with nice 0 before one with positive nice or SCHED_IDLE.
   */
  predicate Outranks(t: Task, u: Task) {
    && !t.idle
    && ((t.staticPrio < 120 && (u.idle || u.staticPrio >= 120)) || (t.staticPrio == 120 && (u.idle || u.staticPrio > 120)))
  }

  /** The new priority of a queued task p: some task now outranks the running p, or p the running one. */
  ghost predicate Unsettles(rq: Rq, p: nat)
    requires p in rq.tasks && (rq.donor.Some? ==> rq.donor.value in rq.tasks)
  {
    && rq.tasks[p].linked && rq.donor.Some?
    && if rq.donor.value == p then exists u :: Linked(rq, u) && Outranks(rq.tasks[u], rq.tasks[p])
       else Outranks(rq.tasks[p], rq.tasks[rq.donor.value])
  }

  lemma OutranksIsBucket(t: Task, u: Task)
    ensures Outranks(t, u) <==> Bucket(t) < Bucket(u)
  {
  }

  function Empty(hz: nat): Rq {
    Rq(hz, map[], [false, false, false], [[], [], []], 0, 0, 0, None, false)
  }

  predicate Shaped(rq: Rq) {
    |rq.active| == NR_TINY_PRIO && |rq.queue| == NR_TINY_PRIO
  }

  predicate Linked(rq: Rq, p: nat) { p in rq.tasks && rq.tasks[p].linked }

  function Count(rq: Rq, d: int): Rq {
    rq.(nrQueued := rq.nrQueued + d, hNrQueued := rq.hNrQueued + d, nrRunning := rq.nrRunning + d)
  }

  function Enqueue(rq: Rq, p: nat): (r: Rq)
    requires Shaped(rq) && p in rq.tasks
    ensures Shaped(r) && r.tasks.Keys == rq.tasks.Keys && r.donor == rq.donor && r.resched == rq.resched
  {
    if rq.tasks[p].linked then rq else
    var b := Bucket(rq.tasks[p]);
    Count(rq.(tasks := rq.tasks[p := rq.tasks[p].(linked := true)],
              queue := rq.queue[b := rq.queue[b] + [p]],
              active := rq.active[b := true]), 1)
  }

  function Dequeue(rq: Rq, p: nat): (r: Rq)
    requires Shaped(rq) && p in rq.tasks
    ensures Shaped(r) && r.tasks.Keys == rq.tasks.Keys && r.donor == rq.donor && r.resched == rq.resched
  {
    if !rq.tasks[p].linked then rq else
    var b := Bucket(rq.tasks[p]);
    var q := Without(rq.queue[b], p);
    Count(rq.(tasks := rq.tasks[p := rq.tasks[p].(linked := false)],
              queue := rq.queue[b := q],
              active := if q == [] then rq.active[b := false] else rq.active), -1)
  }

  /** list_del and list_add_tail within the task's own bucket. */
  function ToTail(rq: Rq, p: nat): (r: Rq)
    requires Shaped(rq) && p in rq.tasks
    ensures Shaped(r) && r.tasks.Keys == rq.tasks.Keys && r.donor == rq.donor && r.resched == rq.resched
  {
    var b := Bucket(rq.tasks[p]);
    rq.(queue := rq.queue[b := Without(rq.queue[b], p) + [p]])
  }

  function Yield(rq: Rq): (r: Rq)
    requires Shaped(rq) && rq.donor.Some? && rq.donor.value in rq.tasks
    ensures Shaped(r) && r.donor == rq.donor
  {
    var p := rq.donor.value;
    var q := rq.queue[Bucket(rq.tasks[p])];
    if rq.tasks[p].linked && q != [] && q[|q| - 1] != p then ToTail(rq, p) else rq
  }

  function WakeupPreempt(rq: Rq, p: nat): Rq
    requires p in rq.tasks
  {
    if rq.donor.Some? && rq.donor.value in rq.tasks
       && Bucket(rq.tasks[p]) < Bucket(rq.tasks[rq.donor.value])
    then rq.(resched := true) else rq
  }

  function Pick(rq: Rq): Option<nat>
    requires Shaped(rq)
  {
    var b := FirstSet(rq.active, NR_TINY_PRIO);
    if b >= NR_TINY_PRIO || rq.queue[b] == [] then None else Some(rq.queue[b][0])
  }

  function SetNext(rq: Rq, p: nat): Rq
    requires p in rq.tasks
  {
    rq.(tasks := rq.tasks[p := rq.tasks[p].(slice := DefaultSlice(rq.hz))])
  }

  function Tick(rq: Rq): (r: Rq)
    requires Shaped(rq) && rq.donor.Some? && rq.donor.value in rq.tasks
    ensures Shaped(r) && r.donor == rq.donor
  {
    var p := rq.donor.value;
    var t := rq.tasks[p];
    if |rq.queue[Bucket(t)]| <= 1 then rq
    else
      var left := if t.slice == 0 then 0 else t.slice - 1;
      var rq1 := rq.(tasks := rq.tasks[p := t.(slice := left)]);
      if left != 0 then rq1 else ToTail(rq1, p).(resched := true)
  }

  function HigherPrio(rq: Rq, p: nat): bool
    requires Shaped(rq) && p in rq.tasks
  {
    FirstSet(rq.active, NR_TINY_PRIO) < Bucket(rq.tasks[p])
  }

  /** prio_changed_fair (and switched_to_fair, which has the same body). */
  function PrioChanged(rq: Rq, p: nat): (r: Rq)
    requires Shaped(rq) && p in rq.tasks
    ensures Shaped(r) && r.donor == rq.donor
  {
    if !rq.tasks[p].linked then rq
    else if rq.donor == Some(p) then (if HigherPrio(rq, p) then rq.(resched := true) else rq)
    else WakeupPreempt(rq, p)
  }

  /** pick_next_task_fair: set_next_task runs when the pick differs, or when core asks for it. */
  function Schedule(rq: Rq, again: bool): (r: Rq)
    requires Shaped(rq)
    ensures Shaped(r) && !r.resched
  {
    var next := Pick(rq);
    var rq1 := if next.Some? && next.value in rq.tasks && (next != rq.donor || again)
               then SetNext(rq, next.value) else rq;
    rq1.(donor := next, resched := false)
  }

  // ---- the index agrees with the queues ----

  ghost predicate BucketOk(rq: Rq, b: nat)
    requires Shaped(rq) && b < NR_TINY_PRIO
  {
    && (rq.active[b] <==> rq.queue[b] != [])
    && Distinct(rq.queue[b])
    && forall p :: p in rq.queue[b] ==> Linked(rq, p) && Bucket(rq.tasks[p]) == b
  }

  /**
   * Bit set iff bucket nonempty; the bucket of a task holds it iff it is linked (so a
   * task is in at most one bucket, once); the counters equal the total length.
   */
  ghost predicate Consistent(rq: Rq) {
    && Shaped(rq)
    && (forall b :: 0 <= b < NR_TINY_PRIO ==> BucketOk(rq, b))
    && (forall p :: Linked(rq, p) ==> p in rq.queue[Bucket(rq.tasks[p])])
    && rq.nrQueued == rq.hNrQueued == rq.nrRunning == Total(rq.queue)
  }

  lemma EnqueueBucket(rq: Rq, p: nat, c: nat)
    requires Consistent(rq) && p in rq.tasks && !rq.tasks[p].linked && c < NR_TINY_PRIO
    ensures BucketOk(Enqueue(rq, p), c)
  {
    assert BucketOk(rq, c);
  }

  lemma EnqueueConsistent(rq: Rq, p: nat)
    requires Consistent(rq) && p in rq.tasks
    ensures Consistent(Enqueue(rq, p)) && Linked(Enqueue(rq, p), p)
    ensures forall u :: u != p ==> (Linked(Enqueue(rq, p), u) <==> Linked(rq, u))
  {
    if !rq.tasks[p].linked {
      var b := Bucket(rq.tasks[p]);
      TotalUpdate(rq.queue, b, rq.queue[b] + [p]);
      assert BucketOk(rq, b);
      forall c | 0 <= c < NR_TINY_PRIO ensures BucketOk(Enqueue(rq, p), c) { EnqueueBucket(rq, p, c); }
    }
  }

  lemma DequeueConsistent(rq: Rq, p: nat)
    requires Consistent(rq) && p in rq.tasks
    ensures Consistent(Dequeue(rq, p)) && !Linked(Dequeue(rq, p), p)
    ensures forall u :: u != p ==> (Linked(Dequeue(rq, p), u) <==> Linked(rq, u))
  {
    if rq.tasks[p].linked {
      var b := Bucket(rq.tasks[p]);
      assert BucketOk(rq, b);
      WithoutDistinct(rq.queue[b], p);
      TotalUpdate(rq.queue, b, Without(rq.queue[b], p));
      forall c | 0 <= c < NR_TINY_PRIO ensures BucketOk(Dequeue(rq, p), c) { assert BucketOk(rq, c); }
    }
  }

  lemma ToTailConsistent(rq: Rq, p: nat)
    requires Consistent(rq) && Linked(rq, p)
    ensures Consistent(ToTail(rq, p))
  {
    var b := Bucket(rq.tasks[p]);
    assert BucketOk(rq, b);
    WithoutDistinct(rq.queue[b], p);
    TotalUpdate(rq.queue, b, Without(rq.queue[b], p) + [p]);
    forall c | 0 <= c < NR_TINY_PRIO ensures BucketOk(ToTail(rq, p), c) { assert BucketOk(rq, c); }
  }

  /** Changing only slices, donor and resched keeps the index. */
  lemma SameIndex(rq: Rq, rq': Rq)
    requires Consistent(rq)
    requires rq'.queue == rq.queue && rq'.active == rq.active
    requires rq'.nrQueued == rq.nrQueued && rq'.hNrQueued == rq.hNrQueued && rq'.nrRunning == rq.nrRunning
    requires rq'.tasks.Keys == rq.tasks.Keys
    requires forall p :: p in rq.tasks ==>
      rq'.tasks[p].linked == rq.tasks[p].linked && Bucket(rq'.tasks[p]) == Bucket(rq.tasks[p])
    ensures Consistent(rq')
  {
    forall b | 0 <= b < NR_TINY_PRIO ensures BucketOk(rq', b) { assert BucketOk(rq, b); }
  }

  /** An unlinked task may be created or change its priority freely. */
  lemma RetuneConsistent(rq: Rq, p: nat, t: Task)
    requires Consistent(rq) && !Linked(rq, p) && !t.linked
    ensures Consistent(rq.(tasks := rq.tasks[p := t]))
  {
    var rq' := rq.(tasks := rq.tasks[p := t]);
    forall b | 0 <= b < NR_TINY_PRIO ensures BucketOk(rq', b) { assert BucketOk(rq, b); }
  }

  /** pick returns the head of the best nonempty bucket, and nothing iff nothing is queued. */
  lemma PickIsBest(rq: Rq)
    requires Consistent(rq)
    ensures Pick(rq).None? <==> rq.nrQueued == 0
    ensures Pick(rq).None? ==> forall u :: !Linked(rq, u)
    ensures Pick(rq).Some? ==>
      var p := Pick(rq).value;
      && Linked(rq, p)
      && rq.queue[Bucket(rq.tasks[p])][0] == p
      && (forall u :: Linked(rq, u) ==> !Outranks(rq.tasks[u], rq.tasks[p]))
  {
    TotalZero(rq.queue);
    var b := FirstSet(rq.active, NR_TINY_PRIO);
    if b < NR_TINY_PRIO {
      assert BucketOk(rq, b);
      forall u | Linked(rq, u) ensures b <= Bucket(rq.tasks[u]) {
        assert BucketOk(rq, Bucket(rq.tasks[u]));
      }
    } else {
      forall c | 0 <= c < NR_TINY_PRIO ensures rq.queue[c] == [] {
        assert BucketOk(rq, c) && !rq.active[c];
      }
    }
  }

  // ---- no unannounced priority inversion, over every run ----

  /** What core.c does to the class, one bracketed operation at a time. */
  datatype Op =
    | Fork(p: nat, idle: bool, staticPrio: int)
    | Wake(p: nat)                                              // enqueue, wakeup_preempt
    | Reprio(p: nat, idle: bool, staticPrio: int, slice: nat)   // dequeue, modify, enqueue, prio_changed
    | YieldCpu
    | TickCpu
    | Resched(again: bool)                                      // schedule()
    | Sleep(again: bool)                                        // dequeue the running task, schedule()
    | Remove(p: nat)                                            // dequeue a task that is not running

  function Retuned(rq: Rq, p: nat, idle: bool, staticPrio: int, slice: nat): Rq
    requires p in rq.tasks
  {
    rq.(tasks := rq.tasks[p := rq.tasks[p].(idle := idle, staticPrio := staticPrio, slice := slice)])
  }

  /** Operations whose guard does not hold leave the queue alone. */
  function Step(rq: Rq, op: Op): (r: Rq)
    requires Shaped(rq)
    ensures Shaped(r)
  {
    match op
    case Fork(p, idle, prio) =>
      if p in rq.tasks then rq
      else rq.(tasks := rq.tasks[p := Task(idle, prio, DefaultSlice(rq.hz), false)])
    case Wake(p) =>
      if p !in rq.tasks || rq.tasks[p].linked then rq else WakeupPreempt(Enqueue(rq, p), p)
    case Reprio(p, idle, prio, slice) =>
      if p !in rq.tasks then rq
      else if !rq.tasks[p].linked then Retuned(rq, p, idle, prio, slice)
      else PrioChanged(Enqueue(Retuned(Dequeue(rq, p), p, idle, prio, slice), p), p)
    case YieldCpu =>
      if rq.donor.Some? && rq.donor.value in rq.tasks then Yield(rq) else rq
    case TickCpu =>
      if rq.donor.Some? && rq.donor.value in rq.tasks then Tick(rq) else rq
    case Resched(again) => Schedule(rq, again)
    case Sleep(again) =>
      if rq.donor.Some? && rq.donor.value in rq.tasks
      then Schedule(Dequeue(rq, rq.donor.value), again) else rq
    case Remove(p) =>
      if p in rq.tasks && rq.donor != Some(p) then Dequeue(rq, p) else rq
  }

  ghost predicate NoInversion(rq: Rq) {
    rq.donor.Some? ==>
      && Linked(rq, rq.donor.value)
      && ((exists u :: Linked(rq, u) && Outranks(rq.tasks[u], rq.tasks[rq.donor.value])) ==> rq.resched)
  }

  ghost predicate Inv(rq: Rq) { Consistent(rq) && NoInversion(rq) }

  /** The bitmap test of higher_prio_task_fair sees every better task. */
  lemma HigherPrioIsExact(rq: Rq, p: nat)
    requires Consistent(rq) && p in rq.tasks
    ensures HigherPrio(rq, p) <==> exists u :: Linked(rq, u) && Outranks(rq.tasks[u], rq.tasks[p])
  {
    var b := FirstSet(rq.active, NR_TINY_PRIO);
    if HigherPrio(rq, p) {
      assert BucketOk(rq, b);
      assert Linked(rq, rq.queue[b][0]);
    }
    if u :| Linked(rq, u) && Outranks(rq.tasks[u], rq.tasks[p]) {
      assert BucketOk(rq, Bucket(rq.tasks[u]));
    }
  }

  lemma ScheduleInv(rq: Rq, again: bool)
    requires Consistent(rq)
    ensures Inv(Schedule(rq, again))
  {
    PickIsBest(rq);
    SameIndex(rq, Schedule(rq, again));
  }

  lemma WakeInv(rq: Rq, p: nat)
    requires Inv(rq) && p in rq.tasks && !rq.tasks[p].linked
    ensures Inv(WakeupPreempt(Enqueue(rq, p), p))
  {
    EnqueueConsistent(rq, p);
    SameIndex(Enqueue(rq, p), WakeupPreempt(Enqueue(rq, p), p));
  }

  /** After p alone has been requeued, prio_changed restores the announcement. */
  lemma PrioChangedInv(rq: Rq, rq3: Rq, p: nat)
    requires NoInversion(rq) && Consistent(rq3) && Linked(rq3, p)
    requires rq3.donor == rq.donor && rq3.resched == rq.resched
    requires forall u :: u != p ==> (Linked(rq3, u) <==> Linked(rq, u))
    requires forall u :: u != p && Linked(rq, u) ==> Bucket(rq3.tasks[u]) == Bucket(rq.tasks[u])
    ensures Inv(PrioChanged(rq3, p))
  {
    HigherPrioIsExact(rq3, p);
    SameIndex(rq3, PrioChanged(rq3, p));
  }

  lemma ReprioInv(rq: Rq, p: nat, idle: bool, prio: int, slice: nat)
    requires Inv(rq) && Linked(rq, p)
    ensures Inv(PrioChanged(Enqueue(Retuned(Dequeue(rq, p), p, idle, prio, slice), p), p))
  {
    DequeueConsistent(rq, p);
    var rq1 := Dequeue(rq, p);
    RetuneConsistent(rq1, p, rq1.tasks[p].(idle := idle, staticPrio := prio, slice := slice));
    var rq2 := Retuned(rq1, p, idle, prio, slice);
    EnqueueConsistent(rq2, p);
    PrioChangedInv(rq, Enqueue(rq2, p), p);
  }

  /** Counting down the slice of the running task changes nothing that the invariant speaks of. */
  lemma SliceInv(rq: Rq, slice: nat)
    requires Inv(rq) && rq.donor.Some?
    ensures var p := rq.donor.value;
      Inv(rq.(tasks := rq.tasks[p := rq.tasks[p].(slice := slice)]))
  {
    var p := rq.donor.value;
    SameIndex(rq, rq.(tasks := rq.tasks[p := rq.tasks[p].(slice := slice)]));
  }

  lemma RotateInv(rq: Rq)
    requires Inv(rq) && rq.donor.Some?
    ensures Inv(ToTail(rq, rq.donor.value).(resched := true))
  {
    ToTailConsistent(rq, rq.donor.value);
    SameIndex(ToTail(rq, rq.donor.value), ToTail(rq, rq.donor.value).(resched := true));
  }

  lemma TickInv(rq: Rq)
    requires Inv(rq) && rq.donor.Some?
    ensures Inv(Tick(rq))
  {
    var p := rq.donor.value;
    var left := if rq.tasks[p].slice == 0 then 0 else rq.tasks[p].slice - 1;
    SliceInv(rq, left);
    RotateInv(rq.(tasks := rq.tasks[p := rq.tasks[p].(slice := left)]));
  }

  lemma StepInv(rq: Rq, op: Op)
    requires Inv(rq)
    ensures Inv(Step(rq, op))
  {
    match op
    case Fork(p, idle, prio) =>
      if p !in rq.tasks { RetuneConsistent(rq, p, Task(idle, prio, DefaultSlice(rq.hz), false)); }
    case Wake(p) => if p in rq.tasks && !rq.tasks[p].linked { WakeInv(rq, p); }
    case Reprio(p, idle, prio, slice) =>
      if p in rq.tasks {
        if rq.tasks[p].linked { ReprioInv(rq, p, idle, prio, slice); }
        else { RetuneConsistent(rq, p, rq.tasks[p].(idle := idle, staticPrio := prio, slice := slice)); }
      }
    case YieldCpu => if rq.donor.Some? { ToTailConsistent(rq, rq.donor.value); }
    case TickCpu => if rq.donor.Some? { TickInv(rq); }
    case Resched(again) => ScheduleInv(rq, again);
    case Sleep(again) => if rq.donor.Some? { SleepInv(rq, again); }
    case Remove(p) => if p in rq.tasks && rq.donor != Some(p) { RemoveInv(rq, p); }
  }

  lemma SleepInv(rq: Rq, again: bool)
    requires Inv(rq) && rq.donor.Some?
    ensures Inv(Step(rq, Sleep(again)))
  {
    DequeueConsistent(rq, rq.donor.value);
    ScheduleInv(Dequeue(rq, rq.donor.value), again);
  }

  lemma RemoveInv(rq: Rq, p: nat)
    requires Inv(rq) && p in rq.tasks && rq.donor != Some(p)
    ensures Inv(Step(rq, Remove(p)))
  {
    DequeueConsistent(rq, p);
  }

  function Run(hz: nat, ops: seq<Op>): (rq: Rq)
    ensures Shaped(rq)
  {
    if ops == [] then Empty(hz) else Step(Run(hz, ops[..|ops| - 1]), ops[|ops| - 1])
  }

  /**
   * After any sequence of operations the index agrees with the queues, and if a queued
   * task outranks the running one a reschedule is pending.
   */
  lemma {:induction false} RunInv(hz: nat, ops: seq<Op>)
    ensures Consistent(Run(hz, ops)) && NoInversion(Run(hz, ops))
  {
    if ops == [] {
      assert Total<nat>([[], [], []]) == 0 by { TotalZero<nat>([[], [], []]); }
    } else {
      RunInv(hz, ops[..|ops| - 1]);
      StepInv(Run(hz, ops[..|ops| - 1]), ops[|ops| - 1]);
    }
  }

  // ---- exact round robin ----

  /** One clock tick after which a requested reschedule is honoured. */
  function TickStep(rq: Rq): (r: Rq)
    requires Shaped(rq)
    ensures Shaped(r)
  {
    var r := Step(rq, TickCpu);
    if r.resched then Step(r, Resched(false)) else r
  }

  /** tr(n) is the run queue after n ticks. */
  ghost predicate Ticking(tr: nat -> Rq) {
    forall n: nat {:trigger TickStep(tr(n))} :: Shaped(tr(n)) && tr(n + 1) == TickStep(tr(n))
  }

  ghost function Running(tr: nat -> Rq): (who: nat -> Option<nat>)
    ensures forall n: nat :: who(n) == tr(n).donor
  {
    (n: nat) => tr(n).donor
  }

  /** How many of the first n ticks found task t running. */
  ghost function Ran(tr: nat -> Rq, n: nat, t: nat): nat {
    Share(Running(tr), n, Some(t))
  }

  function Rotated(q: seq<nat>, rot: nat): seq<nat>
    requires rot <= |q|
  {
    q[rot..] + q[..rot]
  }

  /**
   * q is the best bucket b, rotated rot times from its starting order; its head is
   * running and has used `used` ticks of its slice; no reschedule is pending.
   */
  ghost predicate Turn(rq: Rq, b: nat, q: seq<nat>, rot: nat, used: nat) {
    && Shaped(rq) && b < NR_TINY_PRIO && FirstSet(rq.active, NR_TINY_PRIO) == b
    && |q| >= 2 && Distinct(q) && rot < |q| && used < DefaultSlice(rq.hz)
    && rq.queue[b] == Rotated(q, rot)
    && (forall p :: p in q ==> p in rq.tasks && Bucket(rq.tasks[p]) == b)
    && rq.donor == Some(q[rot]) && rq.tasks[q[rot]].slice == DefaultSlice(rq.hz) - used
    && !rq.resched
  }

  lemma RotateOnce(q: seq<nat>, rot: nat)
    requires rot < |q|
    ensures Without(Rotated(q, rot), q[rot]) + [q[rot]] == Rotated(q, if rot + 1 == |q| then 0 else rot + 1)
  {
    var r := Rotated(q, rot);
    assert r[0] == q[rot];
    WithoutHead(r);
  }

  lemma TickWithinSlice(rq: Rq, b: nat, q: seq<nat>, rot: nat, used: nat)
    requires Turn(rq, b, q, rot, used) && used + 1 < DefaultSlice(rq.hz)
    ensures Turn(TickStep(rq), b, q, rot, used + 1) && TickStep(rq).hz == rq.hz
  {
    assert q[rot] in q;
  }

  lemma TickEndsSlice(rq: Rq, b: nat, q: seq<nat>, rot: nat, used: nat)
    requires Turn(rq, b, q, rot, used) && used + 1 == DefaultSlice(rq.hz)
    ensures Turn(TickStep(rq), b, q, if rot + 1 == |q| then 0 else rot + 1, 0) && TickStep(rq).hz == rq.hz
  {
    var p, next := q[rot], if rot + 1 == |q| then 0 else rot + 1;
    assert p in q && q[next] in q && p != q[next];
    RotateOnce(q, rot);
    var r := Step(rq, TickCpu);
    assert r.queue[b] == Rotated(q, next) && r.resched && r.active == rq.active;
    assert Pick(r) == Some(q[next]);
  }

  /** After n ticks position pos is running and has used `used` ticks of its slice. */
  ghost function TurnAt(tr: nat -> Rq, b: nat, q: seq<nat>, hz: nat): (at: (nat, nat, nat) -> bool)
    ensures forall n: nat, pos: nat, used: nat :: at(n, pos, used) <==>
      Turn(tr(n), b, q, pos, used) && tr(n).hz == hz
  {
    (n: nat, pos: nat, used: nat) => Turn(tr(n), b, q, pos, used) && tr(n).hz == hz
  }

  lemma BucketRotates(tr: nat -> Rq, b: nat, q: seq<nat>)
    requires Ticking(tr) && Turn(tr(0), b, q, 0, 0)
    ensures Rotates(TurnAt(tr, b, q, tr(0).hz), |q|, DefaultSlice(tr(0).hz))
  {
    var at, S := TurnAt(tr, b, q, tr(0).hz), DefaultSlice(tr(0).hz);
    forall n: nat, pos: nat, used: nat | Holds(at, n, pos, used) && pos < |q| && used < S
      ensures if used + 1 < S then at(n + 1, pos, used + 1)
              else at(n + 1, if pos + 1 == |q| then 0 else pos + 1, 0)
    {
      if used + 1 < S { TickWithinSlice(tr(n), b, q, pos, used); }
      else { TickEndsSlice(tr(n), b, q, pos, used); }
    }
  }

  function Names(q: seq<nat>): (name: seq<Option<nat>>)
    ensures |name| == |q| && forall x :: 0 <= x < |q| ==> name[x] == Some(q[x])
  {
    seq(|q|, x requires 0 <= x < |q| => Some(q[x]))
  }

  lemma PositionRuns(tr: nat -> Rq, b: nat, q: seq<nat>, hz: nat)
    ensures Named(TurnAt(tr, b, q, hz), Running(tr), q)
  {
  }

  /** The task at each position of the rotation is the one that runs there. */
  ghost predicate Named(at: (nat, nat, nat) -> bool, who: nat -> Option<nat>, q: seq<nat>) {
    forall n: nat, pos: nat, used: nat :: at(n, pos, used) && pos < |q| ==> who(n) == Names(q)[pos]
  }

  lemma ShareBefore(at: (nat, nat, nat) -> bool, who: nat -> Option<nat>, q: seq<nat>, S: nat, i: nat)
    requires Rotates(at, |q|, S) && Distinct(q) && i < |q| && Named(at, who, q)
    ensures Share(who, Times(i, S), Some(q[i])) == 0 && at(Times(i, S), i, 0)
  {
    ShareAfter(at, who, Names(q), S, i, i, 0);
    After(at, |q|, S, i, 0);
  }

  lemma ShareOfRound(at: (nat, nat, nat) -> bool, who: nat -> Option<nat>, q: seq<nat>, S: nat, i: nat)
    requires Rotates(at, |q|, S) && Distinct(q) && i < |q| && Named(at, who, q)
    ensures Share(who, Times(|q|, S), Some(q[i])) == S && at(Times(|q|, S), 0, 0)
  {
    ShareAfter(at, who, Names(q), S, i, |q| - 1, S);
    Round(at, |q|, S);
  }

  /**
   * With k >= 2 tasks in the best bucket and the head starting a full slice of S ticks:
   * the task at position i first runs after exactly i*S ticks, and after k*S ticks each
   * task has run exactly S ticks and the queue is back in its order, the head running.
   */
  lemma ExactRoundRobin(tr: nat -> Rq, b: nat, q: seq<nat>, S: nat, i: nat)
    requires Ticking(tr) && Turn(tr(0), b, q, 0, 0) && S == tr(0).hz / 50 + 1 && i < |q|
    ensures Ran(tr, Times(i, S), q[i]) == 0 && tr(Times(i, S)).donor == Some(q[i])
    ensures Ran(tr, Times(|q|, S), q[i]) == S
    ensures Turn(tr(Times(|q|, S)), b, q, 0, 0) && tr(Times(|q|, S)).queue[b] == q
  {
    BucketRotates(tr, b, q);
    PositionRuns(tr, b, q, tr(0).hz);
    ShareBefore(TurnAt(tr, b, q, tr(0).hz), Running(tr), q, S, i);
    ShareOfRound(TurnAt(tr, b, q, tr(0).hz), Running(tr), q, S, i);
    assert Rotated(q, 0) == q;
  }

  /**
   * Scheduling runs a queued task that none outranks, the first of its bucket, with no
   * reschedule left pending; a task switched to has a full slice; nothing else changes.
   */
  lemma ScheduleRunsBest(rq: Rq, again: bool)
    requires Consistent(rq)
    ensures var r := Schedule(rq, again);
      && !r.resched && (r.donor.None? <==> forall u :: !Linked(rq, u))
      && r.queue == rq.queue && r.tasks.Keys == rq.tasks.Keys && (r.donor.None? ==> r.tasks == rq.tasks)
      && (r.donor.Some? ==>
            var p := r.donor.value;
            && Linked(rq, p) && rq.queue[Bucket(rq.tasks[p])][0] == p
            && (forall u :: Linked(rq, u) ==> !Outranks(rq.tasks[u], rq.tasks[p]))
            && r.tasks == (if r.donor != rq.donor || again then rq.tasks[p := rq.tasks[p].(slice := rq.hz / 50 + 1)] else rq.tasks))
  {
    PickIsBest(rq);
    if Pick(rq).Some? { assert Linked(rq, Pick(rq).value); }
  }

  /** A tick asks for a reschedule exactly when it uses up the slice of a task that is not alone in its bucket. */
  lemma TickIsExact(rq: Rq)
    requires Inv(rq) && rq.donor.Some?
    ensures var p := rq.donor.value;
      var shared := exists u :: Linked(rq, u) && u != p && Bucket(rq.tasks[u]) == Bucket(rq.tasks[p]);
      && (Tick(rq).resched <==> rq.resched || (shared && rq.tasks[p].slice <= 1))
      && (!shared ==> Tick(rq) == rq)
      && (shared ==> Tick(rq).tasks[p].slice == if rq.tasks[p].slice == 0 then 0 else rq.tasks[p].slice - 1)
  {
    var p := rq.donor.value;
    var b := Bucket(rq.tasks[p]);
    assert BucketOk(rq, b);
    Sharing(rq.queue[b], p);
    if |rq.queue[b]| > 1 {
      var u :| u in rq.queue[b] && u != p;
      assert Linked(rq, u);
    }
  }

  lemma Sharing(q: seq<nat>, p: nat)
    requires Distinct(q) && p in q
    ensures |q| > 1 <==> exists u :: u in q && u != p
  {
    if |q| > 1 { assert q[0] in q && q[1] in q; }
  }

  /** After a yield in a bucket of two or more, the next pick is another task. */
  lemma YieldGivesWay(rq: Rq)
    requires Inv(rq) && rq.donor.Some? && |rq.queue[Bucket(rq.tasks[rq.donor.value])]| >= 2
    ensures Pick(Yield(rq)).Some? && Pick(Yield(rq)) != rq.donor
  {
    var p := rq.donor.value;
    var b := Bucket(rq.tasks[p]);
    assert BucketOk(rq, b);
    StepInv(rq, YieldCpu);
    PickIsBest(Yield(rq));
    WithoutDistinct(rq.queue[b], p);
    assert Yield(rq).queue[b][0] != p;
  }

  /** Whenever schedule() starts the head of a bucket of two or more afresh, a round begins. */
  lemma ScheduleStartsRound(rq: Rq, b: nat)
    requires Consistent(rq) && FirstSet(rq.active, NR_TINY_PRIO) == b && b < NR_TINY_PRIO
    requires |rq.queue[b]| >= 2 && rq.donor != Some(rq.queue[b][0])
    ensures Turn(Schedule(rq, false), b, rq.queue[b], 0, 0)
  {
    PickIsBest(rq);
    assert BucketOk(rq, b);
    assert Rotated(rq.queue[b], 0) == rq.queue[b];
  }

  ghost function Ticks(rq: Rq, n: nat): (r: Rq)
    requires Shaped(rq)
    ensures Shaped(r)
  {
    if n == 0 then rq else TickStep(Ticks(rq, n - 1))
  }

  /** Ticking from any run queue is possible. */
  lemma TickingExists(rq: Rq)
    requires Shaped(rq)
    ensures exists tr: nat -> Rq :: tr(0) == rq && Ticking(tr)
  {
    var tr := (n: nat) => Ticks(rq, n);
    assert forall n: nat :: Ticks(rq, n + 1) == TickStep(Ticks(rq, n));
    assert Ticking(tr);
  }

  // ---- each operation does what it is for ----

  /** A woken task is queued, last in its bucket, and announced exactly if it outranks the running one. */
  lemma WakeTakesEffect(rq: Rq, p: nat)
    requires Inv(rq) && p in rq.tasks && !rq.tasks[p].linked
    ensures var r, b := Step(rq, Wake(p)), Bucket(rq.tasks[p]);
      && Linked(r, p) && r.queue[b] == rq.queue[b] + [p] && r.nrRunning == rq.nrRunning + 1
      && (r.resched <==> rq.resched || (rq.donor.Some? && Outranks(rq.tasks[p], rq.tasks[rq.donor.value])))
  {
  }

  /** A task that sleeps or is removed is queued no more; a sleeping one is replaced by the best that is left. */
  lemma LeavingTakesEffect(rq: Rq, p: nat, again: bool)
    requires Inv(rq) && Linked(rq, p)
    ensures rq.donor != Some(p) ==> !Linked(Step(rq, Remove(p)), p) && Step(rq, Remove(p)).donor == rq.donor
    ensures rq.donor == Some(p) ==>
      var r := Step(rq, Sleep(again));
      !Linked(r, p) && r.donor != Some(p) && !r.resched && (r.donor.None? <==> forall u :: !Linked(r, u))
  {
    DequeueConsistent(rq, p);
    if rq.donor == Some(p) {
      ScheduleRunsBest(Dequeue(rq, p), again);
      assert forall u :: Linked(Step(rq, Sleep(again)), u) <==> Linked(Dequeue(rq, p), u);
    }
  }

  /** A bracketed change of priority changes the priority and leaves the task queued, or not, as it was. */
  lemma ReprioTakesEffect(rq: Rq, p: nat, idle: bool, prio: int, slice: nat)
    requires Inv(rq) && p in rq.tasks
    ensures var r := Step(rq, Reprio(p, idle, prio, slice));
      && p in r.tasks && r.tasks[p].idle == idle && r.tasks[p].staticPrio == prio && r.tasks[p].slice == slice
      && (Linked(r, p) <==> Linked(rq, p)) && r.donor == rq.donor
  {
    if Linked(rq, p) {
      var rq2 := Retuned(Dequeue(rq, p), p, idle, prio, slice);
      EnqueueKeepsTask(rq2, p);
      PrioChangedKeeps(Enqueue(rq2, p), p);
    }
  }

  lemma EnqueueKeepsTask(rq: Rq, p: nat)
    requires Shaped(rq) && p in rq.tasks
    ensures Enqueue(rq, p).tasks[p] == rq.tasks[p].(linked := true) && Enqueue(rq, p).donor == rq.donor
  {
  }

  lemma PrioChangedKeeps(rq: Rq, p: nat)
    requires Shaped(rq) && p in rq.tasks
    ensures PrioChanged(rq, p).tasks == rq.tasks && PrioChanged(rq, p).donor == rq.donor
  {
  }

  // ---- FIFO order within a bucket ----

  /** The operations that take u out of its place: its own yield, tick, sleep, removal or priority change. */
  predicate Moves(rq: Rq, op: Op, u: nat) {
    match op
    case Reprio(p, _, _, _) => p == u
    case Remove(p) => p == u
    case YieldCpu => rq.donor == Some(u)
    case TickCpu => rq.donor == Some(u)
    case Sleep(_) => rq.donor == Some(u)
    case _ => false
  }

  lemma AheadEnqueue(rq: Rq, p: nat, b: nat, u: nat, v: nat)
    requires Consistent(rq) && p in rq.tasks && p != u && b < NR_TINY_PRIO && Ahead(rq.queue[b], u, v)
    ensures Ahead(Enqueue(rq, p).queue[b], u, v)
  {
    AheadAppend(rq.queue[b], u, v, p);
  }

  lemma AheadDequeue(rq: Rq, p: nat, b: nat, u: nat, v: nat)
    requires Consistent(rq) && p in rq.tasks && p != u && u != v && b < NR_TINY_PRIO && Ahead(rq.queue[b], u, v)
    ensures Ahead(Dequeue(rq, p).queue[b], u, v)
  {
    assert BucketOk(rq, b);
    AheadWithout(rq.queue[b], u, v, p);
  }

  lemma AheadToTail(rq: Rq, p: nat, b: nat, u: nat, v: nat)
    requires Consistent(rq) && p in rq.tasks && p != u && u != v && b < NR_TINY_PRIO && Ahead(rq.queue[b], u, v)
    ensures Ahead(ToTail(rq, p).queue[b], u, v)
  {
    assert BucketOk(rq, b);
    AheadWithout(rq.queue[b], u, v, p);
    AheadAppend(Without(rq.queue[b], p), u, v, p);
  }

  lemma AheadTick(rq: Rq, b: nat, u: nat, v: nat)
    requires Inv(rq) && rq.donor.Some? && rq.donor != Some(u) && u != v && b < NR_TINY_PRIO && Ahead(rq.queue[b], u, v)
    ensures Ahead(Tick(rq).queue[b], u, v)
  {
    AheadToTail(rq, rq.donor.value, b, u, v);
  }

  lemma AheadReprio(rq: Rq, p: nat, idle: bool, prio: int, slice: nat, b: nat, u: nat, v: nat)
    requires Consistent(rq) && Linked(rq, p) && p != u && u != v && b < NR_TINY_PRIO && Ahead(rq.queue[b], u, v)
    ensures Ahead(Step(rq, Reprio(p, idle, prio, slice)).queue[b], u, v)
  {
    var rq1 := Dequeue(rq, p);
    DequeueConsistent(rq, p);
    AheadDequeue(rq, p, b, u, v);
    RetuneConsistent(rq1, p, rq1.tasks[p].(idle := idle, staticPrio := prio, slice := slice));
    AheadEnqueue(Retuned(rq1, p, idle, prio, slice), p, b, u, v);
  }

  /** No overtaking: whatever happens to others, they stay behind u until u itself moves. */
  lemma AheadStays(rq: Rq, op: Op, b: nat, u: nat, v: nat)
    requires Inv(rq) && b < NR_TINY_PRIO && u != v && Ahead(rq.queue[b], u, v) && !Moves(rq, op, u)
    ensures Ahead(Step(rq, op).queue[b], u, v)
  {
    assert BucketOk(rq, b);
    match op
    case Wake(p) => if p in rq.tasks && !rq.tasks[p].linked { AheadEnqueue(rq, p, b, u, v); }
    case Reprio(p, idle, prio, slice) => if Linked(rq, p) { AheadReprio(rq, p, idle, prio, slice, b, u, v); }
    case YieldCpu => if rq.donor.Some? { AheadToTail(rq, rq.donor.value, b, u, v); }
    case TickCpu => if rq.donor.Some? { AheadTick(rq, b, u, v); }
    case Sleep(_) => if rq.donor.Some? { AheadDequeue(rq, rq.donor.value, b, u, v); }
    case Remove(p) => if p in rq.tasks { AheadDequeue(rq, p, b, u, v); }
    case _ =>
  }

  function Continue(rq: Rq, ops: seq<Op>): (r: Rq)
    requires Shaped(rq)
    ensures Shaped(r)
    decreases |ops|
  {
    if ops == [] then rq else Continue(Step(rq, ops[0]), ops[1..])
  }

  predicate NeverMoves(rq: Rq, ops: seq<Op>, u: nat)
    requires Shaped(rq)
    decreases |ops|
  {
    ops == [] || (!Moves(rq, ops[0], u) && NeverMoves(Step(rq, ops[0]), ops[1..], u))
  }

  /** The same over any run: later arrivals of the same bucket never get ahead of u. */
  lemma {:induction false} NoOvertaking(rq: Rq, ops: seq<Op>, b: nat, u: nat, v: nat)
    requires Inv(rq) && b < NR_TINY_PRIO && u != v && Ahead(rq.queue[b], u, v) && NeverMoves(rq, ops, u)
    ensures Ahead(Continue(rq, ops).queue[b], u, v)
    decreases |ops|
  {
    if ops != [] {
      AheadStays(rq, ops[0], b, u, v);
      StepInv(rq, ops[0]);
      NoOvertaking(Step(rq, ops[0]), ops[1..], b, u, v);
    }
  }

  /** The run queue with its fields updated in place, as in the patch. */
  class TinyRq {
    const hz: nat
    var tasks: map<nat, Task>
    var active: seq<bool>
    var queue: seq<seq<nat>>
    var nrQueued: int
    var hNrQueued: int
    var nrRunning: int
    var donor: Option<nat>
    var resched: bool

    function Value(): Rq
      reads this
    {
      Rq(hz, tasks, active, queue, nrQueued, hNrQueued, nrRunning, donor, resched)
    }

    constructor (hz: nat)
      ensures Value() == Empty(hz)
    {
      this.hz := hz;
      tasks, active, queue := map[], [false, false, false], [[], [], []];
      nrQueued, hNrQueued, nrRunning, donor, resched := 0, 0, 0, None, false;
    }

    method EnqueueTask(p: nat)
      requires Consistent(Value()) && p in tasks
      modifies this
      ensures Value() == Enqueue(old(Value()), p) && Consistent(Value())
    {
      EnqueueConsistent(Value(), p);
      if !tasks[p].linked {
        var prio := Bucket(tasks[p]);
        queue := queue[prio := queue[prio] + [p]];
        active := active[prio := true];
        nrQueued := nrQueued + 1;
        hNrQueued := hNrQueued + 1;
        nrRunning := nrRunning + 1;
        tasks := tasks[p := tasks[p].(linked := true)];
      }
    }

    method DequeueTask(p: nat)
      requires Consistent(Value()) && p in tasks
      modifies this
      ensures Value() == Dequeue(old(Value()), p) && Consistent(Value())
    {
      DequeueConsistent(Value(), p);
      if tasks[p].linked {
        var prio := Bucket(tasks[p]);
        tasks := tasks[p := tasks[p].(linked := false)];
        queue := queue[prio := Without(queue[prio], p)];
        if queue[prio] == [] {
          active := active[prio := false];
        }
        nrQueued := nrQueued - 1;
        hNrQueued := hNrQueued - 1;
        nrRunning := nrRunning - 1;
      }
    }

    method YieldTask()
      requires Inv(Value()) && donor.Some?
      modifies this`queue
      ensures Value() == Yield(old(Value())) && Inv(Value())
    {
      StepInv(Value(), YieldCpu);
      var p := donor.value;
      var prio := Bucket(tasks[p]);
      if tasks[p].linked && queue[prio] != [] && queue[prio][|queue[prio]| - 1] != p {
        queue := queue[prio := Without(queue[prio], p)];
        queue := queue[prio := queue[prio] + [p]];
      }
    }

    method PickTask() returns (p: Option<nat>)
      requires Consistent(Value())
      ensures p == Pick(Value())
      ensures p.None? <==> nrQueued == 0
      ensures p.Some? ==>
        && Linked(Value(), p.value)
        && forall u :: Linked(Value(), u) ==> !Outranks(tasks[u], tasks[p.value])
    {
      PickIsBest(Value());
      var prio := FindFirstBit(active, NR_TINY_PRIO);
      if prio >= NR_TINY_PRIO {
        return None;
      }
      assert BucketOk(Value(), prio);
      p := Some(queue[prio][0]);
    }

    method TaskTick()
      requires Inv(Value()) && donor.Some?
      modifies this`tasks, this`queue, this`resched
      ensures Value() == Tick(old(Value())) && Inv(Value())
    {
      TickInv(Value());
      var p := donor.value;
      var prio := Bucket(tasks[p]);
      if |queue[prio]| <= 1 {
        return;
      }
      if tasks[p].slice != 0 {
        tasks := tasks[p := tasks[p].(slice := tasks[p].slice - 1)];
        if tasks[p].slice != 0 {
          return;
        }
      } else {
        tasks := tasks[p := tasks[p].(slice := 0)];
      }
      queue := queue[prio := Without(queue[prio], p)];
      queue := queue[prio := queue[prio] + [p]];
      resched := true;
    }

    /** pick_next_task_fair with the pick's set_next_task. */
    method PickNext(again: bool)
      requires Consistent(Value())
      modifies this`tasks, this`donor, this`resched
      ensures Value() == Schedule(old(Value()), again) && Inv(Value())
    {
      ScheduleInv(Value(), again);
      var next := PickTask();
      if next.Some? && (next != donor || again) {
        tasks := tasks[next.value := tasks[next.value].(slice := DefaultSlice(hz))];
      }
      donor, resched := next, false;
    }

    /** wakeup_preempt_fair, after the enqueue of p. */
    method WakeupPreemptTask(p: nat)
      requires p in tasks && (donor.Some? ==> donor.value in tasks)
      modifies this`resched
      ensures Value() == WakeupPreempt(old(Value()), p)
      ensures resched <==> old(resched) || (donor.Some? && Outranks(tasks[p], tasks[donor.value]))
    {
      if donor.Some? && Bucket(tasks[p]) < Bucket(tasks[donor.value]) { resched := true; }
    }

    method PrioChange(p: nat)
      requires Consistent(Value()) && p in tasks && (donor.Some? ==> donor.value in tasks)
      modifies this`resched
      ensures Value() == PrioChanged(old(Value()), p)
      ensures resched <==> old(resched) || Unsettles(Value(), p)
    {
      HigherPrioIsExact(Value(), p);
      if !tasks[p].linked {
        return;
      }
      if donor == Some(p) {
        var highest := FindFirstBit(active, NR_TINY_PRIO);
        if highest < Bucket(tasks[p]) { resched := true; }
        return;
      }
      if donor.None? {
        return;
      }
      if Bucket(tasks[p]) < Bucket(tasks[donor.value]) { resched := true; }
    }
  }
}
