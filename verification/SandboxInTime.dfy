/** One sandbox's polling, statuses and silence inside the scheduler, among any other steps of the scheduler. */
module SandboxInTime {
  import opened Folds
  import opened Scheduler
  import opened SchedulerInvariant
  import opened SchedulerTime
  import opened StatusFeed

  /** A tick of the sandbox's feed, or a step of the scheduler that has nothing to do with it. */
  datatype Event = Of(tick: Tick) | Other(a: Act)

  datatype Scene = Scene(feed: Feed, acts: seq<Act>)

  function Sched(s: Scene): Scheduler.State { Exec(Init(), s.acts) }

  /** What a tick is for the scheduler, the sandbox's stream being k. */
  function ActsFor(f: Feed, tick: Tick, delay: nat, k: nat): seq<Act> {
    match tick
    case Elapse(ms) => if MayElapse(f, ms, delay) then [Scheduler.Elapse(ms)] else []
    case Arrive(st) => if f.inflight != [] then [StatusArrives(k, st)] else []
    case Sweep => [Scheduler.Sweep]
    case _ => []
  }

  /** Not a clock tick, a sweep or Close, not on stream k, and not on another stream under the same sandbox id. */
  predicate Elsewhere(s: Scheduler.State, a: Act, k: nat, i: Ref) {
    match a
    case Elapse(_) => false
    case Sweep => false
    case CloseAll => false
    case StatusArrives(l, _) => l != k
    case Connect(l, sid) => l != k && i < |s.insts| && sid != s.insts[i].sid
    case Disconnect(l) =>
      l != k && i < |s.insts| && l < |s.streams|
      && (Joined(s.streams[l]) ==> s.streams[l].inst < |s.insts| && s.insts[s.streams[l].inst].sid != s.insts[i].sid)
    case _ => true
  }

  /** The sandbox's statuses hold no negative numbers. */
  predicate Sound(tick: Tick) { tick.Arrive? ==> tick.st.available >= 0 && tick.st.waiting >= 0 }

  function Next(s: Scene, e: Event, delay: nat, k: nat, i: Ref): Scene {
    match e
    case Of(tick) =>
      if Sound(tick) then Scene(Step(s.feed, tick, delay), s.acts + ActsFor(s.feed, tick, delay, k)) else s
    case Other(a) => if Elsewhere(Sched(s), a, k, i) then s.(acts := s.acts + [a]) else s
  }

  function Together(s: Scene, events: seq<Event>, delay: nat, k: nat, i: Ref): Scene {
    if events == [] then s else
    var rest, e := events[..|events| - 1], events[|events| - 1];
    Next(Together(s, rest, delay, k, i), e, delay, k, i)
  }

  /** The feed is what the scheduler's instance i on stream k looks like. */
  ghost predicate Seen(f: Feed, s: Scheduler.State, k: nat, i: Ref) {
    && i < |s.insts| && k < |s.streams| && s.streams[k] == Connected(i) && s.clock == f.now
    && s.insts[i].lastSeen == f.inst.lastSeen && s.insts[i].active == f.inst.active
    && (f.registered <==> Registered(s, i))
  }

  lemma ExecOne(acts: seq<Act>, a: Act)
    ensures Exec(Init(), acts + [a]) == Scheduler.Apply(Exec(Init(), acts), a)
  {
    assert (acts + [a])[..|acts|] == acts;
  }

  // ------------------------------------------------- ticks

  lemma ElapseSeen(f: Feed, s: Scheduler.State, ms: nat, delay: nat, k: nat, i: Ref)
    requires Seen(f, s, k, i) && !s.panicked && MayElapse(f, ms, delay)
    ensures Seen(Step(f, StatusFeed.Elapse(ms), delay), Scheduler.Apply(s, Scheduler.Elapse(ms)), k, i)
  {
  }

  lemma ArriveSeen(f: Feed, s: Scheduler.State, st: Status, delay: nat, k: nat, i: Ref)
    requires Seen(f, s, k, i) && !s.panicked && f.inflight != [] && st.available >= 0 && st.waiting >= 0
    ensures Seen(Step(f, Arrive(st), delay), Scheduler.Apply(s, StatusArrives(k, st)), k, i)
  {
  }

  lemma SweepSeen(f: Feed, s: Scheduler.State, delay: nat, k: nat, i: Ref)
    requires Inv(s) && Seen(f, s, k, i) && !s.panicked
    ensures Seen(Step(f, StatusFeed.Sweep, delay), Scheduler.Apply(s, Scheduler.Sweep), k, i)
  {
    hide JobsOnce, Counters;
    SweepIsSafe(s, Scheduler.Sweep);
    SweepRegisters(s, i);
    hide Shape;
  }

  lemma TickSeen(s: Scene, tick: Tick, delay: nat, k: nat, i: Ref)
    requires Seen(s.feed, Sched(s), k, i) && !Sched(s).panicked && Sound(tick)
    ensures Seen(Next(s, Of(tick), delay, k, i).feed, Sched(Next(s, Of(tick), delay, k, i)), k, i)
  {
    var f, t := s.feed, Sched(s);
    EveryScheduleKeepsInv(s.acts);
    hide Inv, Exec, Scheduler.Apply;
    match tick
    case Elapse(ms) =>
      if MayElapse(f, ms, delay) { ElapseSeen(f, t, ms, delay, k, i); ExecOne(s.acts, Scheduler.Elapse(ms)); }
      else { assert s.acts + [] == s.acts; }
    case Arrive(st) =>
      if f.inflight != [] { ArriveSeen(f, t, st, delay, k, i); ExecOne(s.acts, StatusArrives(k, st)); }
      else { assert s.acts + [] == s.acts; }
    case Sweep => SweepSeen(f, t, delay, k, i); ExecOne(s.acts, Scheduler.Sweep);
    case _ => assert s.acts + [] == s.acts;
  }

  // ------------------------------------------------- other steps

  lemma OtherStream(s: Scheduler.State, a: Act, k: nat, i: Ref)
    requires Shape(s) && !s.panicked && i < |s.insts| && k < |s.streams| && s.streams[k] == Connected(i)
    requires Elsewhere(s, a, k, i)
    ensures var t := ApplyStream(s, a);
      && i < |t.insts| && k < |t.streams| && t.streams[k] == Connected(i) && t.clock == s.clock
      && Keeps(s.insts[i], t.insts[i]) && (Registered(t, i) <==> Registered(s, i))
  {
    hide InstOk;
  }

  lemma OtherDispatch(s: Scheduler.State, a: Act)
    ensures var t := ApplyDispatch(s, a); t.streams == s.streams && t.registered == s.registered && t.clock == s.clock
  {
  }

  lemma OtherSend(s: Scheduler.State, a: Act)
    ensures var t := ApplySend(s, a); t.streams == s.streams && t.registered == s.registered && t.clock == s.clock
  {
  }

  lemma OtherSeen(f: Feed, s: Scheduler.State, a: Act, k: nat, i: Ref)
    requires Inv(s) && Seen(f, s, k, i) && !s.panicked && Elsewhere(s, a, k, i)
    ensures Seen(f, Scheduler.Apply(s, a), k, i)
  {
    hide JobsOnce, Counters;
    OtherStream(s, a, k, i);
    OtherDispatch(s, a);
    OtherSend(s, a);
    OthersLeave(s, a, i);
    hide Shape, ApplyDispatch, ApplySend, ApplyStream;
  }

  lemma NextSeen(s: Scene, e: Event, delay: nat, k: nat, i: Ref)
    requires Seen(s.feed, Sched(s), k, i) && !Sched(s).panicked
    ensures Seen(Next(s, e, delay, k, i).feed, Sched(Next(s, e, delay, k, i)), k, i)
  {
    match e
    case Of(tick) => if Sound(tick) { TickSeen(s, tick, delay, k, i); }
    case Other(a) =>
      if Elsewhere(Sched(s), a, k, i) {
        EveryScheduleKeepsInv(s.acts);
        hide Inv, Scheduler.Apply;
        OtherSeen(s.feed, Sched(s), a, k, i);
        ExecOne(s.acts, a);
      }
  }

  // ------------------------------------------------- whole runs

  lemma PanicStays(s: Scene, e: Event, delay: nat, k: nat, i: Ref)
    requires Sched(s).panicked
    ensures Sched(Next(s, e, delay, k, i)).panicked
  {
    var t := Next(s, e, delay, k, i);
    if e.Of? && Sound(e.tick) {
      var more := ActsFor(s.feed, e.tick, delay, k);
      if more == [] { assert s.acts + more == s.acts; } else { assert more == [more[0]]; ExecOne(s.acts, more[0]); }
    } else if e.Other? && Elsewhere(Sched(s), e.a, k, i) {
      ExecOne(s.acts, e.a);
    }
  }

  lemma {:induction false} TogetherSeen(s: Scene, events: seq<Event>, delay: nat, k: nat, i: Ref)
    requires Seen(s.feed, Sched(s), k, i) && !Sched(Together(s, events, delay, k, i)).panicked
    ensures Seen(Together(s, events, delay, k, i).feed, Sched(Together(s, events, delay, k, i)), k, i)
  {
    hide Seen, Next, Sched;
    if events != [] {
      var before := Together(s, events[..|events| - 1], delay, k, i);
      if Sched(before).panicked {
        PanicStays(before, events[|events| - 1], delay, k, i);
      } else {
        TogetherSeen(s, events[..|events| - 1], delay, k, i);
        NextSeen(before, events[|events| - 1], delay, k, i);
      }
    }
  }

  /** The sandbox's own ticks. */
  function Ticks(events: seq<Event>): seq<Tick> {
    if events == [] then [] else
    var e := events[|events| - 1];
    Ticks(events[..|events| - 1]) + if e.Of? && Sound(e.tick) then [e.tick] else []
  }

  lemma {:induction false} FeedRuns(s: Scene, events: seq<Event>, delay: nat, k: nat, i: Ref)
    ensures Together(s, events, delay, k, i).feed == Run(s.feed, Ticks(events), delay)
  {
    hide Step, Elsewhere;
    if events != [] {
      var rest, e := events[..|events| - 1], events[|events| - 1];
      FeedRuns(s, rest, delay, k, i);
      if e.Of? && Sound(e.tick) {
        assert (Ticks(rest) + [e.tick])[..|Ticks(rest)|] == Ticks(rest);
      } else {
        assert Ticks(events) == Ticks(rest);
      }
    }
  }

  /** In the scheduler, whatever else it does: a living sandbox whose statuses arrive within a delay that leaves 15.3 s
      of the minute stays active and registered. */
  lemma LivingStaysEligible(s: Scene, t: int, events: seq<Event>, delay: nat, k: nat, i: Ref)
    requires Connects(s.feed, t) && Seen(s.feed, Sched(s), k, i) && 15_300 + delay <= 60_000
    requires var u := Together(s, events, delay, k, i); u.feed.alive && !Sched(u).panicked
    ensures var u := Sched(Together(s, events, delay, k, i));
      i < |u.insts| && u.insts[i].active && Registered(u, i) && u.clock - u.insts[i].lastSeen <= 15_300 + delay
  {
    TogetherSeen(s, events, delay, k, i);
    FeedRuns(s, events, delay, k, i);
    LivingStaysActive(s.feed, t, Ticks(events), delay);
    hide Together, Sched, Run, Steady;
  }

  /** And one not heard of for more than 90 s, by the schedule, is no candidate, and after 330 s not registered. */
  lemma SilentIsIneligible(s: Scene, t: int, events: seq<Event>, delay: nat, k: nat, i: Ref)
    requires Connects(s.feed, t) && Seen(s.feed, Sched(s), k, i)
    requires !Sched(Together(s, events, delay, k, i)).panicked
    ensures var acts := Together(s, events, delay, k, i).acts;
      var u, silent := Exec(Init(), acts), Time(acts) - LastHeard(acts, i);
      && (silent > 90_000 ==> !Candidate(u, i))
      && (silent > 330_000 ==> !Registered(u, i))
  {
    var acts := Together(s, events, delay, k, i).acts;
    TogetherSeen(s, events, delay, k, i);
    FeedRuns(s, events, delay, k, i);
    SilentIsDropped(s.feed, t, Ticks(events), delay);
    HeardExactly(acts, i);
    ClockIsTime(acts);
    hide Together, Run, Exec, LastHeard, Time;
  }
}
