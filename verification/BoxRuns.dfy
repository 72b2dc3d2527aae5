/** Concrete schedules showing that the conditions in BoxTheorems do occur. */
module BoxRuns {
  import opened BoxAllocator
  import opened BoxTheorems
  import opened BoxCapacity
  import opened Folds

  /** Extend a schedule by one action. */
  lemma Then(s0: State, acts: seq<Act>, a: Act) returns (more: seq<Act>)
    ensures more == acts + [a] && Exec(s0, more) == Apply(Exec(s0, acts), a)
  {
    more := acts + [a];
    assert more[..|more| - 1] == acts;
  }

  lemma Start(s0: State)
    ensures Exec(s0, []) == s0
  {
  }

  lemma {:induction false} Then4(s0: State, acts: seq<Act>, a: Act, b: Act, c: Act, d: Act) returns (more: seq<Act>)
    ensures Exec(s0, more) == Apply(Apply(Apply(Apply(Exec(s0, acts), a), b), c), d)
  {
    more := Then(s0, acts, a);
    more := Then(s0, more, b);
    more := Then(s0, more, c);
    more := Then(s0, more, d);
  }

  /** The shutdown loop's two conditions hold while the worker still holds a job it has not started. */
  lemma ShutdownMissesHeldJob() returns (acts: seq<Act>)
    ensures var s := Exec(Init(1), acts);
      s.WaitingCount() == 0 && s.ProcessingCount() == 0 && s.worker == HasJob(7) && 7 !in s.finished + s.dropped
  {
    acts := Then4(Init(1), [], StartAdd(7), AddOk(0), AddReturn(0), Check);
    acts := Then(Init(1), acts, Take);
  }

  /** The loop reads WaitingCount first and ProcessingCount later: both reads can give 0 although the
      job is in flight at the first and queued at the second. */
  lemma ShutdownReadsApart() returns (first: seq<Act>, later: seq<Act>)
    ensures first <= later
    ensures Exec(Init(1), first).WaitingCount() == 0
    ensures Exec(Init(1), later).ProcessingCount() == 0 && Exec(Init(1), later).jobs == [7]
  {
    first := Then(Init(1), [], StartAdd(7));
    later := Then(Init(1), first, AddOk(0));
    later := Then(Init(1), later, AddReturn(0));
  }

  // The stages of a run with one box and two jobs.
  function Served(): State { Init(1).(free := [], count := 0, procs := [Done, Running(7, 0)]) }

  function Returned(): State {
    Init(1).(free := [], jobs := [8], count := 1, procs := [Done, Enqueuing(0), Done], finished := multiset{7})
  }

  function GivenUp(): State {
    Init(1).(free := [0], waiting := [0], jobs := [8], chans := [Channel([], false)],
             procs := [Done, Done, Done], timedOut := {0}, finished := multiset{7})
  }

  function Swallowed(): State {
    Init(1).(free := [], count := 0, chans := [Channel([0], false)], procs := [Done, Done, Done, Closing(0)],
             timedOut := {0}, finished := multiset{7, 8})
  }

  lemma Arrive() returns (acts: seq<Act>)
    ensures Exec(Init(1), acts) == Init(1).(jobs := [7], worker := Checked, procs := [Done])
  {
    Start(Init(1));
    hide Exec;
    acts := Then4(Init(1), [], StartAdd(7), AddOk(0), AddReturn(0), Check);
  }

  lemma Serve() returns (acts: seq<Act>)
    ensures Exec(Init(1), acts) == Served()
  {
    hide Exec;
    acts := Arrive();
    assert Init(1).free == [0];
    acts := Then4(Init(1), acts, Take, TryBox, Subtract, Launch);
  }

  lemma Return() returns (acts: seq<Act>)
    ensures Exec(Init(1), acts) == Returned()
  {
    hide Exec;
    acts := Serve();
    acts := Then4(Init(1), acts, StartAdd(8), AddOk(2), AddReturn(2), Finish(1));
    acts := Then(Init(1), acts, CountUp(1));
  }

  lemma Wait() returns (acts: seq<Act>)
    ensures Exec(Init(1), acts) == Returned().(jobs := [], waiting := [0], chans := [Channel([], false)],
      worker := Waiting(8, 0))
  {
    hide Exec;
    acts := Return();
    acts := Then4(Init(1), acts, Check, Take, TryBox, MakeChan);
  }

  lemma GiveUp() returns (acts: seq<Act>)
    ensures Exec(Init(1), acts) == GivenUp()
  {
    hide Exec;
    acts := Wait();
    acts := Then(Init(1), acts, PutBack(1));
    assert Exec(Init(1), acts) == GivenUp().(jobs := [], worker := Waiting(8, 0), timedOut := {});
    acts := Then(Init(1), acts, Timeout);
    assert Exec(Init(1), acts) == GivenUp().(jobs := [], worker := TimedOut(8));
    acts := Then(Init(1), acts, GiveBack);
  }

  lemma Retry() returns (acts: seq<Act>)
    ensures Exec(Init(1), acts) == GivenUp().(free := [], jobs := [], count := 0, worker := Reserved(8, 0))
  {
    hide Exec;
    acts := GiveUp();
    acts := Then4(Init(1), acts, Check, Take, TryBox, Subtract);
  }

  lemma TakeStaleWaiter() returns (acts: seq<Act>)
    ensures Exec(Init(1), acts) == Swallowed().(waiting := [], chans := [Channel([], false)], procs := [Done, Done,
      Done, HandingOff(0, 0)])
  {
    hide Exec;
    acts := Retry();
    acts := Then(Init(1), acts, Launch);
    assert Exec(Init(1), acts) == GivenUp().(free := [], jobs := [], count := 0, procs := [Done, Done, Done,
      Running(8, 0)]);
    acts := Then(Init(1), acts, Finish(3));
    assert multiset{7} + multiset{8} == multiset{7, 8};
  }

  /** Already at this moment, with nothing stranded yet, the server is lost: its box is bound for the abandoned
      channel. */
  lemma OnlyBoxDoomed() returns (acts: seq<Act>)
    ensures var s := Exec(Init(1), acts);
      s.worker.Idle? && s.handoffs + |Stranded(s)| == 0 && s.handoffs + Lost(s) >= s.n
  {
    acts := TakeStaleWaiter();
    hide Exec;
    var s := Exec(Init(1), acts);
    assert Stranded(s) == {};
    var p := HandingOff(0, 0);
    GatherAppend([Done, Done, Done], p, UnsentChans);
    assert [Done, Done, Done] + [p] == s.procs;
    assert UnsentChans(p) == multiset{0};
    assert |Gather(s.procs, UnsentChans)| >= 1;
  }

  lemma Swallow() returns (acts: seq<Act>)
    ensures Exec(Init(1), acts) == Swallowed()
  {
    hide Exec;
    acts := TakeStaleWaiter();
    acts := Then(Init(1), acts, HandOff(3));
  }

  /** With one box: the worker sees the box counted but not yet queued, times out waiting for it, and
      the next release sends the box into the abandoned channel. The server then judges nothing more. */
  lemma OnlyBoxStranded() returns (acts: seq<Act>)
    ensures var s := Exec(Init(1), acts);
      Stranded(s) == {0} && s.worker.Idle? && s.handoffs + |Stranded(s)| >= s.n
  {
    acts := Swallow();
    assert Stranded(Swallowed()) == {0};
  }
}
