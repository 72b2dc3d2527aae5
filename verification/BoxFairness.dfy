/** A server's three queues are first in, first out: jobs, free boxes and waiting Reserve calls. */
module BoxFairness {
  import opened Folds
  import opened BoxAllocator

  // ------------------------------------------------- what one step takes and adds

  function JobTaken(s: State, a: Act): seq<Job> {
    if a == Take && !s.panicked && s.worker.Checked? && s.jobs != [] then [s.jobs[0]] else []
  }

  function JobAdded(s: State, a: Act): seq<Job> {
    if s.panicked then [] else
    match a
    case AddOk(i) => if i < |s.procs| && s.procs[i].Adding? then [s.procs[i].job] else []
    case GiveBack => if s.worker.TimedOut? then [s.worker.job] else []
    case _ => []
  }

  function BoxTaken(s: State, a: Act): seq<Box> {
    if a == TryBox && !s.panicked && s.worker.HasJob? && s.free != [] then [s.free[0]] else []
  }

  function BoxAdded(s: State, a: Act): seq<Box> {
    if a.PutBack? && !s.panicked && a.i < |s.procs| && s.procs[a.i].Enqueuing? then [s.procs[a.i].box] else []
  }

  function WaiterTaken(s: State, a: Act): seq<ChanId> {
    if a.Finish? && !s.panicked && a.i < |s.procs| && s.procs[a.i].Running? && s.waiting != []
    then [s.waiting[0]] else []
  }

  function WaiterAdded(s: State, a: Act): seq<ChanId> {
    if a == MakeChan && !s.panicked && s.worker.NoBox? then [|s.chans|] else []
  }

  lemma AddStep(s: State, a: Act)
    ensures var t := ApplyAdd(s, a);
      t.jobs == s.jobs + (if a.AddOk? && !s.panicked then JobAdded(s, a) else t.jobs[|s.jobs|..])
      && |s.jobs| <= |t.jobs| && (!a.AddOk? ==> t.jobs == s.jobs)
      && t.free == s.free && t.waiting == s.waiting
  {
  }

  lemma HeadRest<T>(q: seq<T>)
    ensures q != [] ==> [q[0]] + q[1..] == q
  {
  }

  lemma TakeStep(s: State, a: Act)
    requires !s.panicked
    ensures JobTaken(s, a) + ApplyWorker(s, a).jobs == s.jobs + (if a == GiveBack then JobAdded(s, a) else [])
  {
    HeadRest(s.jobs);
    if a == Take || a == GiveBack {
    } else {
      assert ApplyWorker(s, a).jobs == s.jobs;
    }
  }

  lemma ReserveStep(s: State, a: Act)
    requires !s.panicked
    ensures BoxTaken(s, a) + ApplyWorker(s, a).free == s.free
    ensures ApplyWorker(s, a).waiting == s.waiting + WaiterAdded(s, a)
  {
    HeadRest(s.free);
  }

  lemma ReleaseStep(s: State, a: Act)
    requires !s.panicked
    ensures var t := ApplyRelease(s, a);
      && t.jobs == s.jobs && t.free == s.free + BoxAdded(s, a) && WaiterTaken(s, a) + t.waiting == s.waiting
  {
    HeadRest(s.waiting);
  }

  lemma QueueStep(s: State, a: Act)
    ensures JobTaken(s, a) + Apply(s, a).jobs == s.jobs + JobAdded(s, a)
    ensures BoxTaken(s, a) + Apply(s, a).free == s.free + BoxAdded(s, a)
    ensures WaiterTaken(s, a) + Apply(s, a).waiting == s.waiting + WaiterAdded(s, a)
  {
    AddStep(s, a);
    if !s.panicked {
      TakeStep(s, a);
      ReserveStep(s, a);
      ReleaseStep(s, a);
    }
    hide ApplyAdd, ApplyWorker, ApplyRelease;
  }

  // ------------------------------------------------- over whole schedules

  function JobsTaken(s: State, acts: seq<Act>): seq<Job> {
    if acts == [] then [] else
    JobsTaken(s, acts[..|acts| - 1]) + JobTaken(Exec(s, acts[..|acts| - 1]), acts[|acts| - 1])
  }

  function JobsAdded(s: State, acts: seq<Act>): seq<Job> {
    if acts == [] then [] else
    JobsAdded(s, acts[..|acts| - 1]) + JobAdded(Exec(s, acts[..|acts| - 1]), acts[|acts| - 1])
  }

  function BoxesTaken(s: State, acts: seq<Act>): seq<Box> {
    if acts == [] then [] else
    BoxesTaken(s, acts[..|acts| - 1]) + BoxTaken(Exec(s, acts[..|acts| - 1]), acts[|acts| - 1])
  }

  function BoxesAdded(s: State, acts: seq<Act>): seq<Box> {
    if acts == [] then [] else
    BoxesAdded(s, acts[..|acts| - 1]) + BoxAdded(Exec(s, acts[..|acts| - 1]), acts[|acts| - 1])
  }

  function WaitersTaken(s: State, acts: seq<Act>): seq<ChanId> {
    if acts == [] then [] else
    WaitersTaken(s, acts[..|acts| - 1]) + WaiterTaken(Exec(s, acts[..|acts| - 1]), acts[|acts| - 1])
  }

  function WaitersAdded(s: State, acts: seq<Act>): seq<ChanId> {
    if acts == [] then [] else
    WaitersAdded(s, acts[..|acts| - 1]) + WaiterAdded(Exec(s, acts[..|acts| - 1]), acts[|acts| - 1])
  }

  /** The worker takes jobs in the order in which they were queued by AddJob or put back. */
  lemma {:induction false} JobsFifo(s: State, acts: seq<Act>)
    ensures JobsTaken(s, acts) + Exec(s, acts).jobs == s.jobs + JobsAdded(s, acts)
  {
    hide Apply, JobTaken, JobAdded;
    if acts != [] {
      var rest, a := acts[..|acts| - 1], acts[|acts| - 1];
      var t := Exec(s, rest);
      JobsFifo(s, rest);
      QueueStep(t, a);
      Chain(JobsTaken(s, rest), s.jobs, t.jobs, JobsAdded(s, rest), JobTaken(t, a), Apply(t, a).jobs, JobAdded(t, a));
    }
  }

  /** Reserve takes free boxes in the order in which they came back. */
  lemma {:induction false} BoxesFifo(s: State, acts: seq<Act>)
    ensures BoxesTaken(s, acts) + Exec(s, acts).free == s.free + BoxesAdded(s, acts)
  {
    hide Apply, BoxTaken, BoxAdded;
    if acts != [] {
      var rest, a := acts[..|acts| - 1], acts[|acts| - 1];
      var t := Exec(s, rest);
      BoxesFifo(s, rest);
      QueueStep(t, a);
      Chain(BoxesTaken(s, rest), s.free, t.free, BoxesAdded(s, rest), BoxTaken(t, a), Apply(t, a).free, BoxAdded(t, a));
    }
  }

  /** Release serves the Reserve calls, given up or not, in the order in which they began to wait. */
  lemma {:induction false} WaitersFifo(s: State, acts: seq<Act>)
    ensures WaitersTaken(s, acts) + Exec(s, acts).waiting == s.waiting + WaitersAdded(s, acts)
  {
    hide Apply, WaiterTaken, WaiterAdded;
    if acts != [] {
      var rest, a := acts[..|acts| - 1], acts[|acts| - 1];
      var t := Exec(s, rest);
      WaitersFifo(s, rest);
      QueueStep(t, a);
      Chain(WaitersTaken(s, rest), s.waiting, t.waiting, WaitersAdded(s, rest),
            WaiterTaken(t, a), Apply(t, a).waiting, WaiterAdded(t, a));
    }
  }

  // ------------------------------------------------- no starvation

  /** Looks of the worker at the job queue. */
  function Looks(s: State, acts: seq<Act>): nat {
    if acts == [] then 0 else
    var t := Exec(s, acts[..|acts| - 1]);
    Looks(s, acts[..|acts| - 1]) + if acts[|acts| - 1] == Take && !t.panicked && t.worker.Checked? then 1 else 0
  }

  lemma {:induction false} LooksTake(s: State, acts: seq<Act>, p: nat)
    requires p < |s.jobs| && |JobsTaken(s, acts)| <= p
    ensures |JobsTaken(s, acts)| == Looks(s, acts)
  {
    hide Apply;
    if acts != [] {
      var rest := acts[..|acts| - 1];
      JobsFifo(s, rest);
      LooksTake(s, rest, p);
      assert |JobsTaken(s, rest) + Exec(s, rest).jobs| >= |s.jobs|;
    }
  }

  /** A job at position p is the next or an earlier one once the worker has looked at the queue p + 1 times, whatever is
      added meanwhile. */
  lemma JobAttempted(s: State, acts: seq<Act>, p: nat)
    requires p < |s.jobs|
    ensures Looks(s, acts) > p ==> |JobsTaken(s, acts)| > p && JobsTaken(s, acts)[p] == s.jobs[p]
  {
    JobsFifo(s, acts);
    if |JobsTaken(s, acts)| <= p {
      LooksTake(s, acts, p);
    } else {
      assert (JobsTaken(s, acts) + Exec(s, acts).jobs)[p] == s.jobs[p];
    }
  }
}
