/** When a sandbox was last heard of, and what the sweeps make of it: everything here is read off the schedule, not
    off the fields that the scheduler keeps. Times are milliseconds. */
module SchedulerTime {
  import opened Folds
  import opened Scheduler
  import opened SchedulerInvariant

  // ------------------------------------------------- what a schedule says

  /** The time at the end of a schedule. */
  function Time(acts: seq<Act>): int {
    if acts == [] then 0 else Time(acts[..|acts| - 1]) + if acts[|acts| - 1].Elapse? then acts[|acts| - 1].ms else 0
  }

  /** In this state the action makes instance i, or is a status accepted from its stream. */
  predicate HeardBy(s: State, a: Act, i: Ref) {
    && !s.panicked
    && match a
       case Connect(k, _) => k < |s.streams| && (s.streams[k].Opened? || s.streams[k].Connected?) && i == |s.insts|
       case StatusArrives(k, st) =>
         k < |s.streams| && s.streams[k] == Connected(i) && i < |s.insts| && st.available >= 0 && st.waiting >= 0
       case _ => false
  }

  /** When instance i was last heard of. */
  function LastHeard(acts: seq<Act>, i: Ref): int {
    if acts == [] then 0 else
    var front, a := acts[..|acts| - 1], acts[|acts| - 1];
    if HeardBy(Exec(Init(), front), a, i) then Time(front) else LastHeard(front, i)
  }

  /** The last status accepted from instance i's stream. */
  function LastReport(acts: seq<Act>, i: Ref): Option<Status> {
    if acts == [] then None else
    var front, a := acts[..|acts| - 1], acts[|acts| - 1];
    if HeardBy(Exec(Init(), front), a, i) then if a.StatusArrives? then Some(a.st) else None
    else LastReport(front, i)
  }

  /** Instance i's stream ends, or a sweep finds it registered and silent for more than a minute. */
  predicate PutOut(acts: seq<Act>, a: Act, i: Ref) {
    var s := Exec(Init(), acts);
    && !s.panicked && i < |s.insts|
    && match a
       case Disconnect(k) => k < |s.streams| && Joined(s.streams[k]) && s.streams[k].inst == i && !s.insts[i].closed
       case Sweep => Registered(s, i) && Time(acts) - LastHeard(acts, i) > 60_000
       case _ => false
  }

  function EverPutOut(acts: seq<Act>, i: Ref): bool {
    if acts == [] then false else
    EverPutOut(acts[..|acts| - 1], i) || PutOut(acts[..|acts| - 1], acts[|acts| - 1], i)
  }

  /** Instance i's id is connected again, or a stream of an instance with its id ends. */
  predicate IdTaken(s: State, a: Act, i: Ref)
    requires i < |s.insts|
  {
    match a
    case Connect(k, sid) =>
      sid == s.insts[i].sid && k < |s.streams| && (s.streams[k].Opened? || s.streams[k].Connected?)
    case Disconnect(k) =>
      && k < |s.streams| && Joined(s.streams[k]) && s.streams[k].inst < |s.insts|
      && s.insts[s.streams[k].inst].sid == s.insts[i].sid && !s.insts[s.streams[k].inst].closed
    case _ => false
  }

  /** What takes instance i out of the map: those, a sweep that finds it silent for more than five minutes, Close. */
  predicate Unlisted(acts: seq<Act>, a: Act, i: Ref) {
    var s := Exec(Init(), acts);
    && !s.panicked && i < |s.insts|
    && match a
       case Sweep => Time(acts) - LastHeard(acts, i) > 300_000
       case CloseAll => true
       case _ => IdTaken(s, a, i)
  }

  function EverUnlisted(acts: seq<Act>, i: Ref): bool {
    if acts == [] then false else
    EverUnlisted(acts[..|acts| - 1], i) || Unlisted(acts[..|acts| - 1], acts[|acts| - 1], i)
  }

  // ------------------------------------------------- what the fields hold

  lemma {:induction false} ClockIsTime(acts: seq<Act>)
    ensures !Exec(Init(), acts).panicked ==> Exec(Init(), acts).clock == Time(acts)
  {
    if acts != [] {
      ClockIsTime(acts[..|acts| - 1]);
      OnlyElapseMovesClock(Exec(Init(), acts[..|acts| - 1]), acts[|acts| - 1]);
      hide Apply;
    }
  }

  lemma OnlyElapseMovesClock(s: State, a: Act)
    ensures s.panicked ==> Apply(s, a) == s
    ensures !s.panicked ==> Apply(s, a).clock == s.clock + if a.Elapse? then a.ms else 0
  {
    hide Best, Candidate, Registered, Expired, ClosedAlready;
  }

  /** Dispatcher and senders leave these fields alone. */
  lemma OthersLeave(s: State, a: Act, i: Ref)
    requires i < |s.insts|
    ensures |ApplyDispatch(s, a).insts| == |ApplySend(s, a).insts| == |s.insts|
    ensures Keeps(s.insts[i], ApplyDispatch(s, a).insts[i]) && Keeps(s.insts[i], ApplySend(s, a).insts[i])
  {
    DispatchLeaves(s, a, i);
    SendLeaves(s, a, i);
  }

  lemma DispatchLeaves(s: State, a: Act, i: Ref)
    ensures |ApplyDispatch(s, a).insts| == |s.insts|
    ensures i < |s.insts| ==> Keeps(s.insts[i], ApplyDispatch(s, a).insts[i])
  {
  }

  lemma SendLeaves(s: State, a: Act, i: Ref)
    ensures |ApplySend(s, a).insts| == |s.insts|
    ensures i < |s.insts| ==> Keeps(s.insts[i], ApplySend(s, a).insts[i])
  {
  }

  predicate Keeps(a: Instance, b: Instance) {
    b.sid == a.sid && b.lastSeen == a.lastSeen && b.reported == a.reported && b.active == a.active
  }

  lemma StreamHears(s: State, a: Act, i: Ref)
    requires !s.panicked && i < |s.insts| && Shape(s)
    ensures var t := ApplyStream(s, a);
      && i < |t.insts| && t.insts[i].sid == s.insts[i].sid
      && t.insts[i].lastSeen == (if HeardBy(s, a, i) then s.clock else s.insts[i].lastSeen)
      && t.insts[i].reported == (if HeardBy(s, a, i) then Some(a.st) else s.insts[i].reported)
  {
    hide InstOk, Expired, ClosedAlready, Registered;
  }

  lemma StreamMakes(s: State, a: Act)
    requires !s.panicked
    ensures var t := ApplyStream(s, a);
      && |s.insts| <= |t.insts| <= |s.insts| + 1
      && (|t.insts| > |s.insts| ==>
            && HeardBy(s, a, |s.insts|) && a.Connect?
            && var inst := t.insts[|s.insts|];
               inst.lastSeen == s.clock && inst.reported == None && inst.active)
  {
    hide Expired, ClosedAlready, Registered;
  }

  /** The step on the two fields. */
  lemma HearingStep(s: State, a: Act, i: Ref)
    requires Inv(s) && i < |Apply(s, a).insts|
    ensures i >= |s.insts| ==> i == |s.insts| && HeardBy(s, a, i) && a.Connect?
    ensures var inst := Apply(s, a).insts[i];
      if HeardBy(s, a, i) then
        inst.lastSeen == s.clock && inst.reported == if a.StatusArrives? then Some(a.st) else None
      else
        i < |s.insts| && inst.lastSeen == s.insts[i].lastSeen && inst.reported == s.insts[i].reported
  {
    if !s.panicked {
      StreamMakes(s, a);
      if i < |s.insts| {
        OthersLeave(s, a, i);
        StreamHears(s, a, i);
      } else {
        DispatchLeaves(s, a, i);
        SendLeaves(s, a, i);
      }
    }
    hide Inv, ApplyDispatch, ApplySend, ApplyStream;
  }

  /** In every reachable state an instance's LastSeen and last status are those of the last Connect or status that the
      schedule brought it. */
  lemma {:induction false} HeardExactly(acts: seq<Act>, i: Ref)
    requires i < |Exec(Init(), acts).insts|
    ensures Exec(Init(), acts).insts[i].lastSeen == LastHeard(acts, i)
    ensures Exec(Init(), acts).insts[i].reported == LastReport(acts, i)
  {
    hide Inv, Apply, HeardBy;
    if acts != [] {
      var front, a := acts[..|acts| - 1], acts[|acts| - 1];
      var s := Exec(Init(), front);
      EveryScheduleKeepsInv(front);
      HearingStep(s, a, i);
      ClockIsTime(front);
      HeardAlive(s, a, i);
      if i < |s.insts| { HeardExactly(front, i); }
    }
  }

  lemma HeardAlive(s: State, a: Act, i: Ref)
    ensures HeardBy(s, a, i) ==> !s.panicked
  {
  }

  // ------------------------------------------------- active, exactly

  /** The instance's stream ends, its channel still open. */
  predicate Ends(s: State, a: Act, i: Ref) {
    && a.Disconnect? && a.k < |s.streams| && Joined(s.streams[a.k]) && s.streams[a.k].inst == i
    && i < |s.insts| && !s.insts[i].closed
  }

  lemma StreamActive(s: State, a: Act, i: Ref)
    requires !s.panicked && i < |s.insts| && Shape(s) && !(a == Sweep || a == CloseAll)
    ensures var t := ApplyStream(s, a);
      && i < |t.insts|
      && (t.insts[i].active <==> s.insts[i].active && !Ends(s, a, i))
  {
    hide InstOk, Registered;
  }

  lemma SweepActive(s: State, a: Act, i: Ref)
    requires !s.panicked && i < |s.insts| && Shape(s) && (a == Sweep || a == CloseAll)
    ensures var t := ApplyStream(s, a);
      && !t.panicked && |t.insts| == |s.insts|
      && (t.insts[i].active <==>
            s.insts[i].active && !(a == Sweep && Registered(s, i) && s.clock - s.insts[i].lastSeen > 60_000))
  {
    SweepIsSafe(s, a);
    hide InstOk, Registered, Shape;
  }

  lemma ActiveStep(acts: seq<Act>, a: Act, i: Ref)
    requires var s := Exec(Init(), acts); !s.panicked && i < |s.insts|
    ensures var s := Exec(Init(), acts);
      i < |Apply(s, a).insts| && (Apply(s, a).insts[i].active <==> s.insts[i].active && !PutOut(acts, a, i))
  {
    var s := Exec(Init(), acts);
    EveryScheduleKeepsInv(acts);
    ClockIsTime(acts);
    HeardExactly(acts, i);
    OthersLeave(s, a, i);
    hide Exec, LastHeard, Time, Counters, JobsOnce;
    if a == Sweep || a == CloseAll { SweepActive(s, a, i); } else { StreamActive(s, a, i); }
    hide Shape, ApplyDispatch, ApplySend, ApplyStream;
  }

  /** An instance is active exactly as long as its stream has not ended and no sweep has found it registered and unheard
      of for more than a minute. */
  lemma {:induction false} ActiveExactly(acts: seq<Act>, i: Ref)
    requires i < |Exec(Init(), acts).insts|
    ensures Exec(Init(), acts).insts[i].active <==> !EverPutOut(acts, i)
  {
    hide Apply, PutOut, Inv;
    if acts != [] {
      var front, a := acts[..|acts| - 1], acts[|acts| - 1];
      var s := Exec(Init(), front);
      EveryScheduleKeepsInv(front);
      Stopped(front, a, i);
      if i < |s.insts| {
        ActiveExactly(front, i);
        if !s.panicked { ActiveStep(front, a, i); }
      } else {
        NeverBefore(front, i);
        HearingStep(s, a, i);
        NewIsActive(s, a);
      }
    }
  }

  lemma Stopped(acts: seq<Act>, a: Act, i: Ref)
    ensures Exec(Init(), acts).panicked ==> Apply(Exec(Init(), acts), a) == Exec(Init(), acts) && !PutOut(acts, a, i)
    ensures i >= |Exec(Init(), acts).insts| ==> !PutOut(acts, a, i)
  {
  }

  lemma {:induction false} NeverBefore(acts: seq<Act>, i: Ref)
    requires i >= |Exec(Init(), acts).insts|
    ensures !EverPutOut(acts, i)
  {
    hide Apply, PutOut;
    if acts != [] {
      InstancesStay(Exec(Init(), acts[..|acts| - 1]), acts[|acts| - 1]);
      Stopped(acts[..|acts| - 1], acts[|acts| - 1], i);
      NeverBefore(acts[..|acts| - 1], i);
    }
  }

  lemma InstancesStay(s: State, a: Act)
    ensures |s.insts| <= |Apply(s, a).insts|
  {
    if !s.panicked { StreamMakes(s, a); }
    DispatchLeaves(s, a, 0);
    SendLeaves(s, a, 0);
    hide ApplyDispatch, ApplySend, ApplyStream;
  }

  lemma NewIsActive(s: State, a: Act)
    requires !s.panicked && HeardBy(s, a, |s.insts|) && a.Connect?
    ensures |Apply(s, a).insts| == |s.insts| + 1 && Apply(s, a).insts[|s.insts|].active
  {
  }

  // ------------------------------------------------- registered, exactly

  lemma StreamRegisters(s: State, a: Act, i: Ref)
    requires !s.panicked && i < |s.insts| && Shape(s) && a != Sweep && a != CloseAll
    ensures var t := ApplyStream(s, a);
      i < |t.insts| && (Registered(t, i) <==> Registered(s, i) && !IdTaken(s, a, i))
  {
    hide InstOk;
  }

  lemma SweepUnlists(s: State, a: Act, i: Ref)
    requires !s.panicked && i < |s.insts| && Shape(s) && (a == Sweep || a == CloseAll)
    ensures var t := ApplyStream(s, a);
      && i < |t.insts|
      && (Registered(t, i) <==> a == Sweep && Registered(s, i) && s.clock - s.insts[i].lastSeen <= 300_000)
  {
    SweepIsSafe(s, a);
    if a == Sweep { SweepRegisters(s, i); }
    hide InstOk, Shape;
  }

  lemma RegisteredStep(acts: seq<Act>, a: Act, i: Ref)
    requires var s := Exec(Init(), acts); !s.panicked && i < |s.insts|
    ensures var s := Exec(Init(), acts);
      i < |Apply(s, a).insts| && (Registered(Apply(s, a), i) <==> Registered(s, i) && !Unlisted(acts, a, i))
  {
    hide Exec, LastHeard, Time, Counters, JobsOnce, Registered, Shape, ApplyDispatch, ApplySend, ApplyStream;
    var s := Exec(Init(), acts);
    EveryScheduleKeepsInv(acts);
    ClockIsTime(acts);
    HeardExactly(acts, i);
    DispatchRegisters(s, a, i);
    SendRegisters(s, a, i);
    if a == Sweep || a == CloseAll { SweepUnlists(s, a, i); } else { StreamRegisters(s, a, i); }
    SameIndex(s, a, i);
  }

  lemma SameIndex(s: State, a: Act, i: Ref)
    requires !s.panicked
    ensures a == Submit || a.Elapse? ==> Apply(s, a).insts == s.insts && Registered(Apply(s, a), i) == Registered(s, i)
  {
  }

  lemma DispatchRegisters(s: State, a: Act, i: Ref)
    requires i < |s.insts|
    ensures i < |ApplyDispatch(s, a).insts| && (Registered(ApplyDispatch(s, a), i) <==> Registered(s, i))
  {
  }

  lemma SendRegisters(s: State, a: Act, i: Ref)
    requires i < |s.insts|
    ensures i < |ApplySend(s, a).insts| && (Registered(ApplySend(s, a), i) <==> Registered(s, i))
  {
  }

  /** An instance is registered exactly as long as nobody has connected under its id since, no stream of an instance
      with its id has ended, no sweep has found it silent for more than five minutes, and Close has not been called. */
  lemma {:induction false} RegisteredExactly(acts: seq<Act>, i: Ref)
    requires i < |Exec(Init(), acts).insts|
    ensures Registered(Exec(Init(), acts), i) <==> !EverUnlisted(acts, i)
  {
    hide Apply, Unlisted, Inv;
    if acts != [] {
      var front, a := acts[..|acts| - 1], acts[|acts| - 1];
      var s := Exec(Init(), front);
      EveryScheduleKeepsInv(front);
      StillUnlisted(front, a, i);
      if i < |s.insts| {
        RegisteredExactly(front, i);
        if !s.panicked { RegisteredStep(front, a, i); }
      } else {
        NeverListed(front, i);
        HearingStep(s, a, i);
        NewIsRegistered(s, a);
      }
    }
  }

  lemma StillUnlisted(acts: seq<Act>, a: Act, i: Ref)
    ensures Exec(Init(), acts).panicked ==>
              Apply(Exec(Init(), acts), a) == Exec(Init(), acts) && !Unlisted(acts, a, i)
    ensures i >= |Exec(Init(), acts).insts| ==> !Unlisted(acts, a, i)
  {
  }

  lemma {:induction false} NeverListed(acts: seq<Act>, i: Ref)
    requires i >= |Exec(Init(), acts).insts|
    ensures !EverUnlisted(acts, i)
  {
    hide Apply, Unlisted;
    if acts != [] {
      InstancesStay(Exec(Init(), acts[..|acts| - 1]), acts[|acts| - 1]);
      StillUnlisted(acts[..|acts| - 1], acts[|acts| - 1], i);
      NeverListed(acts[..|acts| - 1], i);
    }
  }

  lemma NewIsRegistered(s: State, a: Act)
    requires !s.panicked && HeardBy(s, a, |s.insts|) && a.Connect?
    ensures |Apply(s, a).insts| == |s.insts| + 1 && Registered(Apply(s, a), |s.insts|)
  {
  }

  // ------------------------------------------------- one sweep

  /** What a sweep does to a registered instance, by how long ago it was heard of: up to a minute nothing; then it is no
      candidate any more; after more than five minutes it is gone and its channel closed. */
  lemma SweepDecides(acts: seq<Act>, i: Ref)
    requires var s := Exec(Init(), acts); !s.panicked && i < |s.insts|
    ensures var s := Exec(Init(), acts);
      var t, silent := Apply(s, Sweep), Time(acts) - LastHeard(acts, i);
      && !t.panicked && |t.insts| == |s.insts|
      && (silent <= 60_000 || !Registered(s, i) ==> t.insts[i] == s.insts[i])
      && (Registered(s, i) && silent > 60_000 ==> !t.insts[i].active && !Candidate(t, i))
      && (Registered(t, i) <==> Registered(s, i) && silent <= 300_000)
      && (Registered(s, i) && silent > 300_000 ==> t.insts[i].closed)
  {
    var s := Exec(Init(), acts);
    EveryScheduleKeepsInv(acts);
    ClockIsTime(acts);
    HeardExactly(acts, i);
    hide Exec, LastHeard, Time, Counters, JobsOnce, InstOk;
    SweepIsSafe(s, Sweep);
    SweepRegisters(s, i);
  }

  lemma SweepRegisters(s: State, i: Ref)
    requires Shape(s) && !s.panicked && i < |s.insts| && !ApplyStream(s, Sweep).panicked
    ensures var t := ApplyStream(s, Sweep);
      && |t.insts| == |s.insts| && t.insts[i] == (if Registered(s, i) then Age(s.insts[i], s.clock) else s.insts[i])
      && (Registered(t, i) <==> Registered(s, i) && s.clock - s.insts[i].lastSeen <= 300_000)
  {
    hide InstOk;
  }

  /** Close ends every registered channel and forgets all instances. */
  lemma CloseEnds(acts: seq<Act>, i: Ref)
    requires var s := Exec(Init(), acts); !s.panicked && i < |s.insts|
    ensures var s := Exec(Init(), acts);
      var t := Apply(s, CloseAll);
      && !t.panicked && |t.insts| == |s.insts| && !Registered(t, i) && !Candidate(t, i)
      && t.insts[i].buffer == s.insts[i].buffer && (Registered(s, i) ==> t.insts[i].closed)
      && (!Registered(s, i) ==> t.insts[i] == s.insts[i])
  {
    EveryScheduleKeepsInv(acts);
    hide Exec, Counters, JobsOnce, InstOk;
    SweepIsSafe(Exec(Init(), acts), CloseAll);
  }
}
