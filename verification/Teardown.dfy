/**
 * Shutting a transport down from its pump threads (adbd/src/transport.c): each thread
 * kicks the transport and then drops its reference, in any interleaving.  The source has
 * two threads and starts ref_count at 2; the model has any number of threads.
 */
module Teardown {
  /** What the transport's owner can observe. */
  datatype Call = Kick | Close | Removal

  /** Where a thread is: pumping, at the unlocked test of kicked, inside the locked
      test-and-set, about to call t->kick, at transport_unref, finished. */
  datatype Pc = Pumping | Test | Grab | CallKick | Unref | Done

  datatype State = State(pcs: seq<Pc>, kicked: bool, refCount: int, log: seq<Call>)

  function Init(threads: nat): State {
    State(seq(threads, _ => Pumping), false, threads, [])
  }

  /** transport_unref_locked, under transport_lock. */
  function UnrefLocked(s: State): State {
    var refs := s.refCount - 1;
    if refs != 0 then s.(refCount := refs)
    else
      var kick := if s.kicked then [] else [Kick];
      s.(refCount := refs, kicked := true, log := s.log + kick + [Close, Removal])
  }

  /** One step of thread i; each locked section is one step. */
  function Step(s: State, i: nat): State {
    if i >= |s.pcs| then s else
    match s.pcs[i]
    case Pumping => s.(pcs := s.pcs[i := Test])
    case Test => s.(pcs := s.pcs[i := if s.kicked then Unref else Grab])
    case Grab => s.(pcs := s.pcs[i := if s.kicked then Unref else CallKick], kicked := true)
    case CallKick => s.(pcs := s.pcs[i := Unref], log := s.log + [Kick])
    case Unref => UnrefLocked(s).(pcs := s.pcs[i := Done])
    case Done => s
  }

  function Run(threads: nat, steps: seq<nat>): State {
    if steps == [] then Init(threads) else Step(Run(threads, steps[..|steps| - 1]), steps[|steps| - 1])
  }

  /** How many threads are at pc. */
  function At(pcs: seq<Pc>, pc: Pc): nat {
    if pcs == [] then 0 else (if pcs[0] == pc then 1 else 0) + At(pcs[1..], pc)
  }

  lemma {:induction false} AtUpdate(pcs: seq<Pc>, i: nat, new_: Pc, pc: Pc)
    requires i < |pcs|
    ensures At(pcs[i := new_], pc)
      == At(pcs, pc) - (if pcs[i] == pc then 1 else 0) + (if new_ == pc then 1 else 0)
  {
    if i == 0 {
      assert pcs[i := new_][1..] == pcs[1..];
    } else {
      assert pcs[i := new_][1..] == pcs[1..][i - 1 := new_];
      AtUpdate(pcs[1..], i - 1, new_, pc);
    }
  }

  lemma {:induction false} AtPositive(pcs: seq<Pc>, i: nat)
    requires i < |pcs|
    ensures At(pcs, pcs[i]) >= 1
  {
    if i > 0 { AtPositive(pcs[1..], i - 1); }
  }

  lemma {:induction false} AtBound(pcs: seq<Pc>)
    ensures At(pcs, CallKick) + At(pcs, Done) <= |pcs|
    ensures At(pcs, Done) == |pcs| <==> forall i :: 0 <= i < |pcs| ==> pcs[i] == Done
  {
    if pcs != [] {
      AtBound(pcs[1..]);
      if forall i :: 0 <= i < |pcs| ==> pcs[i] == Done {
        assert forall i :: 0 <= i < |pcs[1..]| ==> pcs[1..][i] == pcs[i + 1];
      }
      if At(pcs, Done) == |pcs| {
        forall i | 0 <= i < |pcs| ensures pcs[i] == Done {
          if i > 0 { assert pcs[1..][i - 1] == pcs[i]; }
        }
      }
    }
  }

  /**
   * The reference count is the number of threads that have not dropped theirs; at most one
   * thread is about to kick; the log is one of the three prefixes.
   */
  ghost predicate Inv(s: State) {
    && s.refCount == |s.pcs| - At(s.pcs, Done)
    && (forall i :: 0 <= i < |s.pcs| && (s.pcs[i].Unref? || s.pcs[i].Done? || s.pcs[i].CallKick?) ==> s.kicked)
    && (if !s.kicked then s.log == [] && At(s.pcs, CallKick) == 0
        else if At(s.pcs, CallKick) != 0 then s.log == [] && At(s.pcs, CallKick) == 1
        else if s.refCount != 0 || |s.pcs| == 0 then s.log == [Kick]
        else s.log == [Kick, Close, Removal])
  }

  lemma StepInv(s: State, i: nat)
    requires Inv(s) && |s.pcs| >= 1
    ensures Inv(Step(s, i)) && |Step(s, i).pcs| == |s.pcs|
  {
    if i < |s.pcs| {
      var s' := Step(s, i);
      AtUpdate(s.pcs, i, s'.pcs[i], Done);
      AtUpdate(s.pcs, i, s'.pcs[i], CallKick);
      AtPositive(s.pcs, i);
      AtBound(s.pcs);
      AtBound(s'.pcs);
    }
  }

  lemma {:induction false} InitInv(threads: nat)
    ensures At(Init(threads).pcs, Done) == 0 && At(Init(threads).pcs, CallKick) == 0
  {
    if threads > 0 {
      assert Init(threads).pcs[1..] == Init(threads - 1).pcs;
      InitInv(threads - 1);
    }
  }

  lemma {:induction false} RunInv(threads: nat, steps: seq<nat>)
    requires threads >= 1
    ensures Inv(Run(threads, steps)) && |Run(threads, steps).pcs| == threads
  {
    if steps == [] {
      InitInv(threads);
    } else {
      RunInv(threads, steps[..|steps| - 1]);
      StepInv(Run(threads, steps[..|steps| - 1]), steps[|steps| - 1]);
    }
  }

  /**
   * In every interleaving the calls seen so far are a prefix of kick, close, removal, each
   * made once; close and removal happen only when every thread has dropped its reference,
   * and by the time all threads are done all three have happened.
   */
  lemma TeardownOrder(threads: nat, steps: seq<nat>)
    requires threads >= 1
    ensures var s := Run(threads, steps);
      && s.log in {[], [Kick], [Kick, Close, Removal]}
      && (s.log == [Kick, Close, Removal] <==> forall i :: 0 <= i < |s.pcs| ==> s.pcs[i] == Done)
      && (forall i :: 0 <= i < |s.pcs| && s.pcs[i].Done? ==> Kick in s.log || CallKick in s.pcs)
  {
    RunInv(threads, steps);
    var s := Run(threads, steps);
    AtBound(s.pcs);
    if At(s.pcs, CallKick) != 0 { AtWitness(s.pcs); }
  }

  lemma {:induction false} AtWitness(pcs: seq<Pc>)
    requires At(pcs, CallKick) != 0
    ensures CallKick in pcs
  {
    if pcs[0] != CallKick { AtWitness(pcs[1..]); }
  }

  // ---- and it does complete ----

  function Left(pc: Pc): nat {
    match pc
    case Pumping => 5
    case Test => 4
    case Grab => 3
    case CallKick => 2
    case Unref => 1
    case Done => 0
  }

  /** The steps the threads still have to take. */
  function ToGo(pcs: seq<Pc>): nat {
    if pcs == [] then 0 else Left(pcs[0]) + ToGo(pcs[1..])
  }

  lemma {:induction false} ToGoUpdate(pcs: seq<Pc>, i: nat, pc: Pc)
    requires i < |pcs|
    ensures ToGo(pcs[i := pc]) == ToGo(pcs) - Left(pcs[i]) + Left(pc)
  {
    if i == 0 {
      assert pcs[i := pc][1..] == pcs[1..];
    } else {
      assert pcs[i := pc][1..] == pcs[1..][i - 1 := pc];
      ToGoUpdate(pcs[1..], i - 1, pc);
    }
  }

  /** A step of a thread that is not done brings the end closer, and changes no other thread. */
  lemma StepAdvances(s: State, i: nat)
    requires i < |s.pcs| && !s.pcs[i].Done?
    ensures var s' := Step(s, i);
      && ToGo(s'.pcs) < ToGo(s.pcs) && |s'.pcs| == |s.pcs|
      && forall j :: 0 <= j < |s.pcs| && j != i ==> s'.pcs[j] == s.pcs[j]
  {
    ToGoUpdate(s.pcs, i, Step(s, i).pcs[i]);
  }

  lemma StepIdles(s: State, i: nat)
    requires i >= |s.pcs| || s.pcs[i].Done?
    ensures Step(s, i) == s
  {
  }

  /** How often thread i is given a step. */
  function Turns(steps: seq<nat>, i: nat): nat {
    if steps == [] then 0 else Turns(steps[..|steps| - 1], i) + (if steps[|steps| - 1] == i then 1 else 0)
  }

  /** Each turn of a thread takes it at least one step further, whatever the others do. */
  lemma {:induction false} TurnsCount(threads: nat, steps: seq<nat>, i: nat)
    requires i < threads
    ensures var s := Run(threads, steps);
      |s.pcs| == threads && (Left(s.pcs[i]) + Turns(steps, i) <= 5 || s.pcs[i].Done?)
  {
    if steps != [] {
      var before, j := steps[..|steps| - 1], steps[|steps| - 1];
      TurnsCount(threads, before, i);
      var s := Run(threads, before);
      if j < |s.pcs| && !s.pcs[j].Done? { StepAdvances(s, j); } else { StepIdles(s, j); }
    }
  }

  /** Once every thread has had five turns, in any interleaving, kick, close and removal have each happened. */
  lemma TeardownCompletes(threads: nat, steps: seq<nat>)
    requires threads >= 1 && forall i :: 0 <= i < threads ==> Turns(steps, i) >= 5
    ensures Run(threads, steps).log == [Kick, Close, Removal]
  {
    var s := Run(threads, steps);
    TurnsCount(threads, steps, 0);
    forall i | 0 <= i < threads ensures s.pcs[i] == Done { TurnsCount(threads, steps, i); }
    TeardownOrder(threads, steps);
  }
}
