/** What holds over whole runs of the scheduler. */
module SchedulerTheorems {
  import opened Folds
  import opened Scheduler
  import opened SchedulerInvariant

  // ------------------------------------------------- counters and panics

  /** The optimistic counters of every instance that has reported, exactly, in every reachable state: they exceed the
      report by one when a decrement older than it has been rolled back and none younger stands. */
  lemma OptimisticCounters(acts: seq<Act>, i: Ref)
    requires i < |Exec(Init(), acts).insts| && Exec(Init(), acts).insts[i].status.Some?
    ensures var s := Exec(Init(), acts);
      var inst := s.insts[i];
      inst.reported.Some? &&
      var st, r := inst.status.value, inst.reported.value;
      && st.available + st.waiting == r.available + r.waiting
      && 0 <= st.available == r.available + (if inst.straddled then 1 else 0) - inst.pushed - Pending(s.disp, i)
      && (st.available > r.available <==> inst.straddled && inst.pushed == 0 && Pending(s.disp, i) == 0)
  {
    EveryScheduleKeepsInv(acts);
    var s := Exec(Init(), acts);
    assert CounterOk(s.insts[i], Pending(s.disp, i), StaleOn(s.disp, i));
  }

  /** A rollback of a decrement older than the last report leaves exactly one box more and one waiting job less
      than that report said. */
  lemma StaleRollBack(acts: seq<Act>)
    requires var s := Exec(Init(), acts); !s.panicked && s.disp.RollingBack? && s.disp.stale
    ensures var s := Exec(Init(), acts);
      && s.disp.inst < |s.insts| && s.insts[s.disp.inst].reported.Some?
      && var r := s.insts[s.disp.inst].reported.value;
      && s.insts[s.disp.inst].status == Some(r)
      && Apply(s, RollBack).insts[s.disp.inst].status ==
        Some(r.(available := r.available + 1, waiting := r.waiting - 1))
  {
    EveryScheduleKeepsInv(acts);
    var s := Exec(Init(), acts);
    hide Exec, JobsOnce;
    ShapeKnows(s, s.disp.inst);
    hide Shape;
    assert CounterOk(s.insts[s.disp.inst], Pending(s.disp, s.disp.inst), StaleOn(s.disp, s.disp.inst));
  }

  /** The program panics only where the dispatcher sends on, or a stream's end closes, a channel that
      somebody else closed in the meantime. */
  lemma PanicsOnlyOnClosed(s: State, a: Act)
    requires Inv(s) && !s.panicked
    ensures Apply(s, a).panicked <==>
      || (a == Push && s.disp.Chosen? && s.insts[s.disp.inst].closed)
      || (a.Disconnect? && a.k < |s.streams| && Joined(s.streams[a.k]) && s.insts[s.streams[a.k].inst].closed)
  {
    hide JobsOnce, Counters, InstOk;
    if a == Sweep || a == CloseAll { SweepIsSafe(s, a); }
  }

  // ------------------------------------------------- instances that are out stay out

  /** Registered and active: the precondition of ever being chosen. */
  predicate Live(s: State, i: Ref) { Registered(s, i) && s.insts[i].active }

  lemma DeadStep(s: State, a: Act, i: Ref)
    requires Shape(s) && i < |s.insts| && !Live(s, i)
    ensures i < |Apply(s, a).insts| && !Live(Apply(s, a), i)
  {
    DeadDispatch(s, a, i);
    DeadStream(s, a, i);
    hide Shape, ApplyDispatch, ApplyStream;
  }

  lemma DeadDispatch(s: State, a: Act, i: Ref)
    requires i < |s.insts| && !Live(s, i)
    ensures i < |ApplyDispatch(s, a).insts| && !Live(ApplyDispatch(s, a), i)
  {
  }

  lemma DeadStream(s: State, a: Act, i: Ref)
    requires Shape(s) && i < |s.insts| && !Live(s, i)
    ensures i < |ApplyStream(s, a).insts| && !Live(ApplyStream(s, a), i)
  {
    hide InstOk;
  }

  /** An instance once marked inactive or removed is never chosen again, whatever arrives. */
  lemma {:induction false} NeverEligibleAgain(s: State, acts: seq<Act>, i: Ref)
    requires Inv(s) && i < |s.insts| && !Live(s, i)
    ensures var t := Exec(s, acts); i < |t.insts| && !Live(t, i) && !Candidate(t, i) && Inv(t)
  {
    if acts != [] {
      NeverEligibleAgain(s, acts[..|acts| - 1], i);
      var t := Exec(s, acts[..|acts| - 1]);
      DeadStep(t, acts[|acts| - 1], i);
      hide Inv;
      StepKeepsInv(t, acts[|acts| - 1]);
    }
  }

  // ------------------------------------------------- where jobs can be lost

  /** A job waiting in a channel has a sender that is ready, busy, or broken by a failed Send. */
  lemma WaitingJobHasSender(s: State, i: Ref)
    requires Inv(s) && i < |s.insts| && s.insts[i].buffer != []
    ensures s.insts[i].sender.Ready? || s.insts[i].sender.Holding? || s.insts[i].sender.Broken?
    ensures s.insts[i].sender.Ready? && !s.panicked ==>
      Apply(s, SendTake(i)).insts[i].sender == Holding(s.insts[i].buffer[0])
  {
    hide JobsOnce, Counters;
    ShapeKnows(s, i);
  }

  lemma BrokenStep(s: State, a: Act, i: Ref)
    requires Shape(s) && i < |s.insts| && s.insts[i].sender.Broken?
    ensures var t := Apply(s, a); i < |t.insts| && t.insts[i].sender.Broken? && s.insts[i].buffer <= t.insts[i].buffer
  {
    BrokenDispatch(s, a, i);
    BrokenStream(s, a, i);
    hide Shape, ApplyDispatch, ApplyStream;
  }

  lemma BrokenDispatch(s: State, a: Act, i: Ref)
    requires i < |s.insts| && s.insts[i].sender.Broken?
    ensures var t := ApplyDispatch(s, a);
      i < |t.insts| && t.insts[i].sender.Broken? && s.insts[i].buffer <= t.insts[i].buffer
  {
  }

  lemma BrokenStream(s: State, a: Act, i: Ref)
    requires Shape(s) && i < |s.insts| && s.insts[i].sender.Broken?
    ensures var t := ApplyStream(s, a);
      i < |t.insts| && t.insts[i].sender.Broken? && s.insts[i].buffer <= t.insts[i].buffer
  {
    hide InstOk;
  }

  /** After a failed Send the jobs still in that channel stay there for good. */
  lemma {:induction false} StrandedForever(s: State, acts: seq<Act>, i: Ref)
    requires Inv(s) && i < |s.insts| && s.insts[i].sender.Broken?
    ensures var t := Exec(s, acts);
      i < |t.insts| && t.insts[i].sender.Broken? && s.insts[i].buffer <= t.insts[i].buffer && Inv(t)
  {
    if acts != [] {
      StrandedForever(s, acts[..|acts| - 1], i);
      var t := Exec(s, acts[..|acts| - 1]);
      BrokenStep(t, acts[|acts| - 1], i);
      hide Inv;
      StepKeepsInv(t, acts[|acts| - 1]);
    }
  }

  /** The jobs whose Send failed along a schedule. */
  function SendFailures(s: State, acts: seq<Act>): multiset<Job> {
    if acts == [] then multiset{} else
    var t, a := Exec(s, acts[..|acts| - 1]), acts[|acts| - 1];
    SendFailures(s, acts[..|acts| - 1]) +
    if a.SendFail? && !t.panicked && a.i < |t.insts| && t.insts[a.i].sender.Holding?
    then multiset{t.insts[a.i].sender.job} else multiset{}
  }

  lemma DropStep(s: State, a: Act)
    ensures Apply(s, a).dropped == s.dropped +
      if a.SendFail? && !s.panicked && a.i < |s.insts| && s.insts[a.i].sender.Holding?
      then multiset{s.insts[a.i].sender.job} else multiset{}
  {
    hide Best;
  }

  lemma {:induction false} DroppedAreFailures(acts: seq<Act>)
    ensures Exec(Init(), acts).dropped == SendFailures(Init(), acts)
  {
    hide Apply;
    if acts != [] {
      DroppedAreFailures(acts[..|acts| - 1]);
      DropStep(Exec(Init(), acts[..|acts| - 1]), acts[|acts| - 1]);
    }
  }

  lemma DroppedOnce(s: State)
    requires JobsOnce(s)
    ensures forall j: nat :: s.dropped[j] <= 1
  {
    assert s.dropped <= JobsHeld(s);
    forall j: nat ensures s.dropped[j] <= 1 {
      assert s.dropped[j] <= Upto(s.submitted)[j];
    }
  }

  /** The scheduler loses a job only by a failed Send, and each lost job once. */
  lemma OnlySendFailuresDrop(acts: seq<Act>)
    ensures Exec(Init(), acts).dropped == SendFailures(Init(), acts)
    ensures forall j: nat :: SendFailures(Init(), acts)[j] <= 1
  {
    EveryScheduleKeepsInv(acts);
    DroppedAreFailures(acts);
    hide Exec, SendFailures, Shape, Counters, JobsHeld;
    DroppedOnce(Exec(Init(), acts));
  }
}
