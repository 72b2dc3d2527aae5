/** What the allocator's invariant means for boxes, counters, shutdown and timed-out waiters. */
module BoxTheorems {
  import opened Folds
  import opened BoxAllocator
  import opened BoxInvariant

  lemma {:induction false} ExecConcat(s: State, xs: seq<Act>, ys: seq<Act>)
    ensures Exec(s, xs + ys) == Exec(Exec(s, xs), ys)
  {
    if ys == [] {
      assert xs + ys == xs;
    } else {
      ExecConcat(s, xs, ys[..|ys| - 1]);
      assert (xs + ys)[..|xs + ys| - 1] == xs + ys[..|ys| - 1];
    }
  }

  // ------------------------------------------------- exclusive boxes

  /** Two judging goroutines never share a box, and a box in use is nowhere else. */
  lemma NoSharedBox(s: State, i: nat, j: nat)
    requires Inv(s) && i < |s.procs| && j < |s.procs| && i != j
    requires s.procs[i].Running? && s.procs[j].Running?
    ensures s.procs[i].box != s.procs[j].box && s.procs[i].box < s.n
    ensures s.procs[i].box !in s.free && s.procs[i].box !in WorkerBoxes(s.worker)
    ensures forall c :: 0 <= c < |s.chans| ==> s.procs[i].box !in s.chans[c].buffer
  {
    hide Inv, Gather, WorkerBoxes;
    var b := s.procs[i].box;
    HeldOnce(s, b);
    RunningHold(s.procs, i, j);
    OnlyHere(multiset(s.free), WorkerBoxes(s.worker), Gather(s.procs, ProcBoxes), Gather(s.chans, Buffered),
             multiset{b}, multiset{s.procs[j].box}, b);
    NotBuffered(s.chans, b);
  }

  lemma RunningHold(ps: seq<Proc>, i: nat, j: nat)
    requires i < |ps| && j < |ps| && i != j && ps[i].Running? && ps[j].Running?
    ensures multiset{ps[i].box} <= Gather(ps, ProcBoxes)
    ensures multiset{ps[i].box} + multiset{ps[j].box} <= Gather(ps, ProcBoxes)
  {
    GatherPair(ps, i, j, ProcBoxes);
    GatherUpdate(ps, i, ps[i], ProcBoxes);
  }

  lemma {:induction false} NotBuffered(cs: seq<Channel>, b: Box)
    requires b !in Gather(cs, Buffered)
    ensures forall c :: 0 <= c < |cs| ==> b !in cs[c].buffer
  {
    if cs != [] {
      var n := |cs| - 1;
      NotBuffered(cs[..n], b);
      assert b !in Buffered(cs[n]);
      assert forall c :: 0 <= c < n ==> cs[..n][c] == cs[c];
    }
  }

  lemma HeldOnce(s: State, b: Box)
    requires Inv(s)
    ensures BoxesHeld(s)[b] == if b < s.n then 1 else 0
  {
    hide Gather, ChannelsOnce, CounterLaw, BoxesHeld;
  }

  /** What is held once, in one of these hands, is in no other. */
  lemma OnlyHere(f: multiset<nat>, w: multiset<nat>, g: multiset<nat>, c: multiset<nat>,
                 x: multiset<nat>, y: multiset<nat>, b: Box)
    requires (f + w + g + c)[b] <= 1 && b in x && x <= g
    ensures b !in f && b !in w && b !in c && (x + y <= g ==> b !in y)
    ensures b in f + w + g + c
  {
    assert x[b] <= g[b];
    if x + y <= g { assert (x + y)[b] <= g[b]; }
  }

  // ------------------------------------------------- the reported counts

  /** Boxes that are free, or counted as free, or just taken from the free queue. */
  function Offered(s: State): nat {
    |s.free| + |Gather(s.procs, CountedBoxes)| + if s.worker.GotBox? then 1 else 0
  }

  lemma Smaller(a: multiset<nat>, b: multiset<nat>)
    requires a <= b
    ensures |b| == |a| + |b - a|
  {
    assert b == a + (b - a);
  }

  /** Offered boxes and boxes sitting in channels are different boxes; when every box is offered,
      no goroutine and no channel holds any other. */
  lemma OfferedAtMost(s: State)
    requires Inv(s)
    ensures Offered(s) + |Gather(s.chans, Buffered)| <= s.n
    ensures Offered(s) == s.n ==>
      |Gather(s.procs, ProcBoxes)| == |Gather(s.procs, CountedBoxes)| && !s.worker.Received? && !s.worker.Reserved?
  {
    GatherWithin(s.procs, CountedBoxes, ProcBoxes);
    Smaller(Gather(s.procs, CountedBoxes), Gather(s.procs, ProcBoxes));
    hide Gather, ChannelsOnce;
    assert |BoxesHeld(s)| == s.n;
  }

  /** The counts in a status message lie between 0 and the number of boxes. */
  lemma CountsInRange(s: State)
    requires Inv(s)
    ensures 0 <= s.AvailableCount() <= s.n && 0 <= s.ProcessingCount() <= s.n
  {
    hide Gather, BoxesOnce, ChannelsOnce;
    OfferedAtMost(s);
  }

  // ------------------------------------------------- the shutdown check

  lemma NoneRunning(s: State)
    requires |Gather(s.procs, ProcBoxes)| == |Gather(s.procs, CountedBoxes)|
    ensures forall i :: 0 <= i < |s.procs| ==> !s.procs[i].Running?
  {
    hide Gather;
    forall i | 0 <= i < |s.procs| && s.procs[i].Running? ensures false {
      var rest := s.procs[i := Done];
      GatherSame(s.procs, i, Done, CountedBoxes);
      GatherUpdate(s.procs, i, Done, ProcBoxes);
      GatherWithin(rest, CountedBoxes, ProcBoxes);
      Smaller(Gather(rest, CountedBoxes), Gather(rest, ProcBoxes));
    }
  }

  lemma NoneAdding(s: State)
    requires AddsInFlight(s) == 0
    ensures forall i :: 0 <= i < |s.procs| ==> !s.procs[i].Adding? && !s.procs[i].AddReturning?
  {
    forall i | 0 <= i < |s.procs| ensures !s.procs[i].Adding? && !s.procs[i].AddReturning? {
      GatherUpdate(s.procs, i, Done, AddToken);
      assert 0 !in Gather(s.procs, AddToken);
    }
  }

  /** ProcessingCount reaches 0 exactly when nobody is adding, no hand-off was ever received, and
      every box is free or on its way back. */
  lemma ProcessingZero(s: State)
    requires Inv(s) && s.n > 0
    ensures s.ProcessingCount() == 0 <==> AddsInFlight(s) == 0 && s.handoffs == 0 && Offered(s) == s.n
  {
    hide Gather, BoxesOnce, ChannelsOnce;
    OfferedAtMost(s);
  }

  /** ProcessingCount 0 alone: nobody is adding or judging, and all jobs are over exactly when none is queued
      and the worker holds none. */
  lemma ShutdownExactly(s: State)
    requires Inv(s) && s.n > 0 && s.ProcessingCount() == 0
    ensures forall i :: 0 <= i < |s.procs| ==> !s.procs[i].Adding? && !s.procs[i].AddReturning? && !s.procs[i].Running?
    ensures JobsHeld(s) == multiset(s.jobs) + WorkerJobs(s.worker) + s.finished + s.dropped
    ensures JobsHeld(s) == s.finished + s.dropped <==> s.jobs == [] && (s.worker.Idle? || s.worker.Checked?)
  {
    ProcessingZero(s);
    OfferedAtMost(s);
    NoneRunning(s);
    NoneAdding(s);
    GatherNone(s.procs, ProcJobs);
    hide Gather, Inv;
    var f := s.finished + s.dropped;
    assert JobsHeld(s) == multiset(s.jobs) + WorkerJobs(s.worker) + f;
    assert |JobsHeld(s)| == |s.jobs| + |WorkerJobs(s.worker)| + |f|;
  }

  // ------------------------------------------------- timed-out waiters and lost boxes

  /** Channels given up on that a box was sent into. */
  ghost function Stranded(s: State): set<ChanId> {
    set c | c in s.timedOut && c < |s.chans| && s.chans[c].buffer != []
  }

  /** Channels given up on that a releaser will still send into. */
  ghost function Stale(s: State): set<ChanId> { set c | c in s.timedOut && c in Unsent(s) }

  /** Each timed-out Reserve is accounted for once: its channel either still awaits a box or has
      swallowed exactly one. A box in any other channel is about to be read by the waiter. */
  lemma StrandedLaw(s: State)
    requires ChannelsOnce(s)
    ensures Stranded(s) + Stale(s) == s.timedOut && Stranded(s) !! Stale(s)
    ensures |Stranded(s)| + |Stale(s)| == |s.timedOut|
    ensures forall c :: 0 <= c < |s.chans| && s.chans[c].buffer != [] ==>
      |s.chans[c].buffer| == 1 && (c in Stranded(s) || (s.worker.Waiting? && s.worker.ch == c))
  {
    StrandedOrStale(s);
    FullAreAwaited(s);
    hide ChannelsOnce, Stranded, Stale;
    assert |Stranded(s) + Stale(s)| == |Stranded(s)| + |Stale(s)|;
  }

  lemma StrandedOrStale(s: State)
    requires ChannelsOnce(s)
    ensures Stranded(s) + Stale(s) == s.timedOut && Stranded(s) !! Stale(s)
  {
    hide Gather, Unsent, OpenChans;
    assert forall c :: c in s.timedOut ==> c in Awaited(s);
  }

  lemma FullAreAwaited(s: State)
    requires ChannelsOnce(s)
    ensures forall c :: 0 <= c < |s.chans| && s.chans[c].buffer != [] ==>
      |s.chans[c].buffer| == 1 && (c in Stranded(s) || (s.worker.Waiting? && s.worker.ch == c))
  {
    hide Gather, Unsent, OpenChans;
  }

  /** How many Reserve calls a schedule lets time out. */
  function TimedOutCalls(s: State, acts: seq<Act>): nat {
    if acts == [] then 0 else
    var before := Exec(s, acts[..|acts| - 1]);
    TimedOutCalls(s, acts[..|acts| - 1]) +
    if acts[|acts| - 1] == Timeout && !before.panicked && before.worker.Waiting? then 1 else 0
  }

  /** Boxes stranded by a schedule never outnumber the Reserve calls that timed out. */
  lemma {:induction false} StrandedBound(n: nat, acts: seq<Act>)
    ensures |Exec(Init(n), acts).timedOut| == TimedOutCalls(Init(n), acts)
    ensures |Stranded(Exec(Init(n), acts))| <= TimedOutCalls(Init(n), acts)
  {
    EveryScheduleKeepsInv(n, acts);
    StrandedLaw(Exec(Init(n), acts));
    if acts != [] {
      var before := Exec(Init(n), acts[..|acts| - 1]);
      StrandedBound(n, acts[..|acts| - 1]);
      EveryScheduleKeepsInv(n, acts[..|acts| - 1]);
      OneTimeout(before, acts[|acts| - 1]);
    }
  }

  lemma OneTimeout(s: State, a: Act)
    requires !s.panicked && (s.worker.Waiting? ==> s.worker.ch !in s.timedOut)
    ensures |Apply(s, a).timedOut| == |s.timedOut| + if a == Timeout && s.worker.Waiting? then 1 else 0
  {
    OnlyTimeoutGivesUp(s, a);
    hide ApplyAdd, ApplyRelease;
  }

  lemma OnlyTimeoutGivesUp(s: State, a: Act)
    ensures ApplyAdd(s, a).timedOut == s.timedOut
    ensures ApplyRelease(s, a).timedOut == s.timedOut
    ensures a != Timeout ==> ApplyWorker(s, a).timedOut == s.timedOut
  {
  }

  /** A stranded box stays where it is whatever happens next. */
  lemma {:induction false} StrandedForever(s: State, acts: seq<Act>, c: ChanId)
    requires Inv(s) && c in Stranded(s)
    ensures c in Stranded(Exec(s, acts)) && Exec(s, acts).chans[c].buffer == s.chans[c].buffer
  {
    if acts != [] {
      var rest, a := acts[..|acts| - 1], acts[|acts| - 1];
      StrandedForever(s, rest, c);
      ExecKeepsInv(s, rest);
      hide Inv;
      StrandedStep(Exec(s, rest), a, c);
    }
  }

  lemma StrandedStep(s: State, a: Act, c: ChanId)
    requires Inv(s) && c in Stranded(s)
    ensures c in Stranded(Apply(s, a)) && Apply(s, a).chans[c].buffer == s.chans[c].buffer
  {
    StrandedRelease(s, a, c) by { UnsentAreOpen(s); hide Gather, BoxesOnce, CounterLaw; }
    StrandedWorker(s, a, c) by { hide Gather, BoxesOnce, CounterLaw, ChannelFacts; }
    StrandedAdd(s, a, c);
    hide Inv, ApplyAdd, ApplyRelease, ApplyWorker, Stranded;
  }

  /** Nobody sends into a full channel, and only the waiter reads. */
  lemma StrandedRelease(s: State, a: Act, c: ChanId)
    requires c in Stranded(s)
    ensures c in Stranded(ApplyRelease(s, a)) && ApplyRelease(s, a).chans[c].buffer == s.chans[c].buffer
  {
  }

  lemma StrandedWorker(s: State, a: Act, c: ChanId)
    requires c in Stranded(s) && (s.worker.Waiting? ==> s.worker.ch !in s.timedOut)
    ensures c in Stranded(ApplyWorker(s, a)) && ApplyWorker(s, a).chans[c].buffer == s.chans[c].buffer
  {
  }

  lemma StrandedAdd(s: State, a: Act, c: ChanId)
    requires c in Stranded(s)
    ensures c in Stranded(ApplyAdd(s, a)) && ApplyAdd(s, a).chans[c].buffer == s.chans[c].buffer
  {
  }
}
