/** The scheduler's invariant holds after every schedule that has not panicked. */
module SchedulerInvariant {
  import opened Folds
  import opened Scheduler

  // ------------------------------------------------- one instance changes

  lemma ShapeSet(s: State, t: State, i: Ref, inst: Instance)
    requires Shape(s) && i < |s.insts| && t.insts == s.insts[i := inst]
    requires t.registered == s.registered && t.streams == s.streams
    requires InstOk(inst) && inst.sid == s.insts[i].sid && inst.closed == s.insts[i].closed
    requires inst.sender.NotStarted? == s.insts[i].sender.NotStarted?
    requires t.disp.Chosen? || t.disp.RollingBack? ==> t.disp.inst < |t.insts| && t.insts[t.disp.inst].status.Some?
    ensures Shape(t)
  {
  }

  lemma CountersSet(s: State, t: State, i: Ref, inst: Instance)
    requires Counters(s) && i < |s.insts| && t.insts == s.insts[i := inst]
    requires forall j: nat :: j != i ==>
      Pending(t.disp, j) == Pending(s.disp, j) && StaleOn(t.disp, j) == StaleOn(s.disp, j)
    requires CounterOk(inst, Pending(t.disp, i), StaleOn(t.disp, i))
    ensures Counters(t)
  {
    hide CounterOk, Pending, StaleOn;
  }

  lemma JobsSet(s: State, t: State, i: Ref, inst: Instance)
    requires i < |s.insts| && t.insts == s.insts[i := inst]
    ensures InstJobs(s.insts[i]) <= Gather(s.insts, InstJobs)
    ensures Gather(t.insts, InstJobs) == Gather(s.insts, InstJobs) - InstJobs(s.insts[i]) + InstJobs(inst)
    ensures InstJobs(inst) == InstJobs(s.insts[i]) ==> Gather(t.insts, InstJobs) == Gather(s.insts, InstJobs)
  {
    hide InstJobs;
    GatherUpdate(s.insts, i, inst, InstJobs);
    hide Gather;
  }

  // ------------------------------------------------- jobs

  lemma TakeJobKeepsJobs(s: State)
    requires s.disp.Draining?
    ensures JobsHeld(ApplyDispatch(s, TakeJob)) == JobsHeld(s)
  {
    hide Gather, InstJobs;
    var t := ApplyDispatch(s, TakeJob);
    if s.queue != [] { HeadTail(s.queue); }
    assert multiset(t.queue) + DispJobs(t.disp) == multiset(s.queue) + DispJobs(s.disp);
  }

  lemma PutBackKeepsJobs(s: State)
    requires s.disp.Failed?
    ensures JobsHeld(ApplyDispatch(s, PutBack)) == JobsHeld(s)
  {
    hide Gather, InstJobs;
    QueueGrows(s.queue, s.disp.job);
    hide DispJobs;
    var t := ApplyDispatch(s, PutBack);
    assert DispJobs(t.disp) == multiset{} by { Empty(t.disp); }
    assert DispJobs(s.disp) == multiset{s.disp.job} by { One(s.disp); }
  }

  lemma QueueGrows(q: seq<nat>, x: nat)
    ensures multiset(q + [x]) == multiset(q) + multiset{x}
  {
  }

  lemma Empty(d: Dispatcher)
    requires d.Asleep? || d.Draining?
    ensures DispJobs(d) == multiset{}
  {
  }

  lemma One(d: Dispatcher)
    requires !d.Asleep? && !d.Draining?
    ensures DispJobs(d) == multiset{d.job}
  {
  }

  /** An instance changes only its counters. */
  lemma CountersKeepJobs(s: State, t: State, i: Ref, inst: Instance)
    requires i < |s.insts| && t.insts == s.insts[i := inst] && InstJobs(inst) == InstJobs(s.insts[i])
    requires t.queue == s.queue && DispJobs(t.disp) == DispJobs(s.disp) && t.sent == s.sent && t.dropped == s.dropped
    ensures JobsHeld(t) == JobsHeld(s)
  {
    hide Gather, InstJobs, DispJobs;
    JobsSet(s, t, i, inst);
  }

  lemma JobArrives(s: State, i: Ref, job: Job, stale: bool)
    requires i < |s.insts|
    ensures Gather(s.insts[i := Accept(s.insts[i], job, stale)], InstJobs) == Gather(s.insts, InstJobs) + multiset{job}
  {
    hide Gather;
    var inst := Accept(s.insts[i], job, stale);
    JobsSet(s, SetInst(s, i, inst), i, inst);
    assert InstJobs(inst) == InstJobs(s.insts[i]) + multiset{job};
  }

  lemma PushKeepsJobs(s: State)
    requires s.disp.Chosen? && s.disp.inst < |s.insts| && ApplyDispatch(s, Push).disp.Draining?
    ensures JobsHeld(ApplyDispatch(s, Push)) == JobsHeld(s)
  {
    hide Gather, InstJobs;
    JobArrives(s, s.disp.inst, s.disp.job, s.disp.stale);
    var q, g, x := multiset(s.queue), Gather(s.insts, InstJobs), multiset{s.disp.job};
    assert q + multiset{} + (g + x) == q + x + g;
  }

  /** The sender's job is gone from the instance. */
  lemma JobLeaves(s: State, i: Ref, to: Sender)
    requires i < |s.insts| && s.insts[i].sender.Holding? && (to == Ready || to == Broken)
    ensures var x := multiset{s.insts[i].sender.job};
      x <= Gather(s.insts, InstJobs)
      && Gather(s.insts[i := s.insts[i].(sender := to)], InstJobs) == Gather(s.insts, InstJobs) - x
  {
    hide Gather;
    var inst, x := s.insts[i].(sender := to), multiset{s.insts[i].sender.job};
    JobsSet(s, SetInst(s, i, inst), i, inst);
    assert InstJobs(s.insts[i]) == InstJobs(inst) + x;
  }

  lemma SendOkKeepsJobs(s: State, i: Ref)
    requires i < |s.insts| && s.insts[i].sender.Holding?
    ensures JobsHeld(ApplySend(s, SendOk(i))) == JobsHeld(s)
  {
    hide Gather, InstJobs, DispJobs;
    JobLeaves(s, i, Ready);
    Shift(multiset(s.queue) + DispJobs(s.disp), Gather(s.insts, InstJobs), s.sent, s.dropped,
      multiset{s.insts[i].sender.job});
  }

  lemma SendFailKeepsJobs(s: State, i: Ref)
    requires i < |s.insts| && s.insts[i].sender.Holding?
    ensures JobsHeld(ApplySend(s, SendFail(i))) == JobsHeld(s)
  {
    hide Gather, InstJobs, DispJobs;
    JobLeaves(s, i, Broken);
    Shift(multiset(s.queue) + DispJobs(s.disp), Gather(s.insts, InstJobs), s.sent, s.dropped,
      multiset{s.insts[i].sender.job});
  }

  lemma SendTakeKeepsJobs(s: State, i: Ref)
    requires i < |s.insts| && s.insts[i].sender.Ready? && s.insts[i].buffer != []
    ensures JobsHeld(ApplySend(s, SendTake(i))) == JobsHeld(s)
  {
    hide Gather;
    var t := ApplySend(s, SendTake(i));
    HeadTail(s.insts[i].buffer);
    assert InstJobs(t.insts[i]) == InstJobs(s.insts[i]);
    CountersKeepJobs(s, t, i, t.insts[i]);
  }

  lemma {:induction false} GatherPointwise(xs: seq<Instance>, ys: seq<Instance>)
    requires |xs| == |ys| && forall i :: 0 <= i < |xs| ==> InstJobs(xs[i]) == InstJobs(ys[i])
    ensures Gather(xs, InstJobs) == Gather(ys, InstJobs)
  {
    hide InstJobs;
    if xs != [] { GatherPointwise(xs[..|xs| - 1], ys[..|ys| - 1]); }
  }

  lemma ConnectKeepsJobs(s: State, k: nat, sid: Sid)
    ensures JobsHeld(ApplyStream(s, Connect(k, sid))) == JobsHeld(s)
  {
    var t := ApplyStream(s, Connect(k, sid));
    if t != s {
      GatherAppend(s.insts, t.insts[|s.insts|], InstJobs);
      hide Gather;
    }
  }

  lemma AllKeepJobs(s: State, t: State)
    requires |t.insts| == |s.insts| && forall i :: 0 <= i < |s.insts| ==> InstJobs(t.insts[i]) == InstJobs(s.insts[i])
    requires t.queue == s.queue && t.sent == s.sent && t.dropped == s.dropped && DispJobs(t.disp) == DispJobs(s.disp)
    ensures JobsHeld(t) == JobsHeld(s)
  {
    GatherPointwise(s.insts, t.insts);
    hide Gather, InstJobs;
  }

  // ------------------------------------------------- each action

  lemma SubmitKeepsInv(s: State)
    requires Inv(s)
    ensures Inv(Apply(s, Submit))
  {
    if !s.panicked {
      hide JobsHeld, Shape, Counters, Upto;
      DispatcherMoves(s, Apply(s, Submit));
      SubmitBringsJob(s);
      NextJob(s.submitted);
    }
  }

  lemma SubmitBringsJob(s: State)
    requires !s.panicked
    ensures JobsHeld(Apply(s, Submit)) == JobsHeld(s) + multiset{s.submitted}
  {
    hide Gather, DispJobs;
    QueueGrows(s.queue, s.submitted);
  }

  lemma NextJob(n: nat)
    ensures Upto(n + 1) == Upto(n) + multiset{n}
  {
  }

  /** Only the dispatcher's state and the queue change. */
  lemma DispatcherMoves(s: State, t: State)
    requires Shape(s) && Counters(s)
    requires t.insts == s.insts && t.registered == s.registered && t.streams == s.streams
    requires forall j: nat :: Pending(t.disp, j) == Pending(s.disp, j) && StaleOn(t.disp, j) == StaleOn(s.disp, j)
    requires t.disp.Chosen? || t.disp.RollingBack? ==>
      (s.disp.Chosen? || s.disp.RollingBack?) && t.disp.inst == s.disp.inst
    ensures Shape(t) && Counters(t)
  {
    hide InstOk, CounterOk, Pending, StaleOn;
  }

  lemma IdleStepsKeepInv(s: State, a: Act)
    requires Inv(s) && ((a == Wake && s.disp.Asleep?) || (a == NoCandidate && s.disp.Held?))
    ensures Inv(ApplyDispatch(s, a))
  {
    hide JobsHeld, Shape, Counters, Upto, Candidate, InstJobs;
    var t := ApplyDispatch(s, a);
    if t != s {
      assert t == s.(disp := t.disp);
      assert DispJobs(t.disp) == DispJobs(s.disp);
      hide ApplyDispatch, DispJobs;
      DispatcherMoves(s, t);
      AllKeepJobs(s, t);
    }
  }

  lemma TakeJobKeepsInv(s: State)
    requires Inv(s) && s.disp.Draining?
    ensures Inv(ApplyDispatch(s, TakeJob))
  {
    hide JobsHeld, Shape, Counters, Upto;
    DispatcherMoves(s, ApplyDispatch(s, TakeJob));
    TakeJobKeepsJobs(s);
  }

  lemma PutBackKeepsInv(s: State)
    requires Inv(s) && s.disp.Failed?
    ensures Inv(ApplyDispatch(s, PutBack))
  {
    hide JobsHeld, Shape, Counters, Upto;
    DispatcherMoves(s, ApplyDispatch(s, PutBack));
    PutBackKeepsJobs(s);
  }

  lemma ChooseKeepsInv(s: State, i: Ref)
    requires Inv(s) && s.disp.Held? && Best(s, i)
    ensures Inv(ApplyDispatch(s, Choose(i)))
  {
    hide JobsHeld, Shape, Upto;
    var t, inst := ApplyDispatch(s, Choose(i)), Reserve1(s.insts[i]);
    ShapeKnows(s, i);
    ShapeSet(s, t, i, inst);
    CountersSet(s, t, i, inst);
    CountersKeepJobs(s, t, i, inst);
  }

  lemma ShapeKnows(s: State, i: Ref)
    requires Shape(s)
    ensures i < |s.insts| ==> InstOk(s.insts[i])
    ensures s.disp.Chosen? || s.disp.RollingBack? ==> s.disp.inst < |s.insts| && s.insts[s.disp.inst].status.Some?
  {
  }

  lemma RollBackKeepsInv(s: State)
    requires Inv(s) && s.disp.RollingBack?
    ensures Inv(ApplyDispatch(s, RollBack))
  {
    hide JobsHeld, Upto;
    var i := s.disp.inst;
    var t, inst := ApplyDispatch(s, RollBack), Unreserve1(s.insts[i], s.disp.stale);
    ShapeSet(s, t, i, inst);
    CountersSet(s, t, i, inst);
    CountersKeepJobs(s, t, i, inst);
  }

  lemma PushKeepsInv(s: State)
    requires Inv(s) && s.disp.Chosen? && !s.insts[s.disp.inst].closed
    ensures Inv(ApplyDispatch(s, Push))
  {
    hide JobsHeld, Upto;
    var t := ApplyDispatch(s, Push);
    if t.disp.Draining? {
      ShapeSet(s, t, s.disp.inst, t.insts[s.disp.inst]);
      CountersSet(s, t, s.disp.inst, t.insts[s.disp.inst]);
      PushKeepsJobs(s);
    } else {
      DispatcherMoves(s, t);
      AllKeepJobs(s, t);
    }
  }

  lemma SendTakeKeepsInv(s: State, i: Ref)
    requires Inv(s) && i < |s.insts| && s.insts[i].sender.Ready? && s.insts[i].buffer != []
    ensures Inv(ApplySend(s, SendTake(i)))
  {
    hide JobsHeld, Upto;
    var t := ApplySend(s, SendTake(i));
    ShapeSet(s, t, i, t.insts[i]);
    CountersSet(s, t, i, t.insts[i]);
    SendTakeKeepsJobs(s, i);
  }

  lemma SendOutcomeKeepsInv(s: State, i: Ref, a: Act)
    requires Inv(s) && i < |s.insts| && s.insts[i].sender.Holding? && (a == SendOk(i) || a == SendFail(i))
    ensures Inv(ApplySend(s, a))
  {
    hide JobsHeld, Upto;
    var t := ApplySend(s, a);
    ShapeSet(s, t, i, t.insts[i]);
    CountersSet(s, t, i, t.insts[i]);
    if a.SendOk? { SendOkKeepsJobs(s, i); } else { SendFailKeepsJobs(s, i); }
  }

  lemma SendEndKeepsInv(s: State, i: Ref)
    requires Inv(s) && i < |s.insts| && s.insts[i].sender.Ready? && s.insts[i].buffer == [] && s.insts[i].closed
    ensures Inv(ApplySend(s, SendEnd(i)))
  {
    hide JobsHeld, Upto;
    var t := ApplySend(s, SendEnd(i));
    ShapeSet(s, t, i, t.insts[i]);
    CountersSet(s, t, i, t.insts[i]);
    CountersKeepJobs(s, t, i, t.insts[i]);
  }

  lemma OpenKeepsInv(s: State)
    requires Inv(s)
    ensures Inv(ApplyStream(s, Open))
  {
    hide Gather, InstJobs, InstOk, CounterOk, Upto;
  }

  lemma ConnectKeepsInv(s: State, k: nat, sid: Sid)
    requires Inv(s) && k < |s.streams| && (s.streams[k].Opened? || s.streams[k].Connected?)
    ensures Inv(ApplyStream(s, Connect(k, sid)))
  {
    hide JobsHeld, Upto;
    ConnectKeepsJobs(s, k, sid);
  }

  lemma ConnectOkKeepsInv(s: State, k: nat)
    requires Inv(s) && k < |s.streams| && s.streams[k].Connecting?
    ensures Inv(ApplyStream(s, ConnectOk(k)))
  {
    hide JobsHeld, Upto;
    var i, t := s.streams[k].inst, ApplyStream(s, ConnectOk(k));
    CountersSet(s, t, i, t.insts[i]);
    CountersKeepJobs(s, t, i, t.insts[i]);
  }

  lemma StatusKeepsInv(s: State, k: nat, st: Status)
    requires Inv(s) && k < |s.streams| && s.streams[k].Connected? && st.available >= 0 && st.waiting >= 0
    ensures Inv(ApplyStream(s, StatusArrives(k, st)))
  {
    hide JobsHeld, Upto;
    var i, t := s.streams[k].inst, ApplyStream(s, StatusArrives(k, st));
    ShapeSet(s, t, i, t.insts[i]);
    CountersSet(s, t, i, t.insts[i]);
    CountersKeepJobs(s, t, i, t.insts[i]);
  }

  lemma DisconnectKeepsShape(s: State, k: nat)
    requires Shape(s) && k < |s.streams| && Joined(s.streams[k]) && !s.insts[s.streams[k].inst].closed
    ensures Shape(ApplyStream(s, Disconnect(k)))
  {
    hide InstOk;
    var i, t := s.streams[k].inst, ApplyStream(s, Disconnect(k));
    assert InstOk(t.insts[i]) by { StillOk(s.insts[i]); }
    assert forall sid :: sid in t.registered ==> t.registered[sid] != i;
  }

  lemma StillOk(inst: Instance)
    requires InstOk(inst)
    ensures InstOk(inst.(active := false, closed := true))
  {
  }

  lemma DisconnectKeepsInv(s: State, k: nat)
    requires Inv(s) && k < |s.streams| && Joined(s.streams[k]) && !s.insts[s.streams[k].inst].closed
    ensures Inv(ApplyStream(s, Disconnect(k)))
  {
    hide JobsHeld, Upto, Shape;
    var i, t := s.streams[k].inst, ApplyStream(s, Disconnect(k));
    DisconnectKeepsShape(s, k);
    StreamsKnow(s, k);
    CountersSet(s, t, i, t.insts[i]);
    CountersKeepJobs(s, t, i, t.insts[i]);
  }

  lemma StreamsKnow(s: State, k: nat)
    requires Shape(s) && k < |s.streams| && Joined(s.streams[k])
    ensures s.streams[k].inst < |s.insts|
  {
  }

  /** Closing channels and marking instances inactive touches neither counters nor jobs. */
  lemma ClosingKeepsRest(s: State, t: State)
    requires Counters(s) && |t.insts| == |s.insts|
    requires forall i :: 0 <= i < |s.insts| ==>
      t.insts[i] == s.insts[i].(active := t.insts[i].active, closed := t.insts[i].closed)
    requires t.queue == s.queue && t.sent == s.sent && t.dropped == s.dropped && t.disp == s.disp
    ensures Counters(t) && JobsHeld(t) == JobsHeld(s)
  {
    AllKeepJobs(s, t);
    hide JobsHeld;
    forall i | 0 <= i < |s.insts| ensures CounterOk(t.insts[i], Pending(t.disp, i), StaleOn(t.disp, i)) {
      assert CounterOk(s.insts[i], Pending(s.disp, i), StaleOn(s.disp, i));
    }
  }

  lemma ClosingKeepsShape(s: State, t: State)
    requires Shape(s) && |t.insts| == |s.insts|
    requires forall i :: 0 <= i < |s.insts| ==>
      t.insts[i] == s.insts[i].(active := t.insts[i].active, closed := t.insts[i].closed)
    requires forall i :: 0 <= i < |s.insts| ==> s.insts[i].closed ==> t.insts[i].closed
    requires forall sid :: sid in t.registered ==> sid in s.registered && t.registered[sid] == s.registered[sid]
    requires forall sid :: sid in t.registered ==> t.registered[sid] < |s.insts| && !t.insts[t.registered[sid]].closed
    requires t.streams == s.streams && t.disp == s.disp
    ensures Shape(t)
  {
  }

  /** The sweeper and Close never close a channel twice. */
  lemma SweepIsSafe(s: State, a: Act)
    requires Shape(s) && !s.panicked && (a == Sweep || a == CloseAll)
    ensures !ApplyStream(s, a).panicked
  {
    assert forall sid :: sid in s.registered ==> !ClosedAlready(s, sid);
  }

  lemma SweepKeepsInv(s: State, a: Act)
    requires Inv(s) && !s.panicked && (a == Sweep || a == CloseAll)
    ensures Inv(ApplyStream(s, a))
  {
    hide JobsHeld, Upto, Counters;
    var t := ApplyStream(s, a);
    SweepIsSafe(s, a);
    ClosingKeepsRest(s, t);
    ClosingKeepsShape(s, t);
  }

  // ------------------------------------------------- every schedule

  lemma PanicKeepsInv(s: State)
    requires Inv(s)
    ensures Inv(s.(panicked := true))
  {
    hide Gather, InstJobs, InstOk, CounterOk, Upto;
  }

  lemma DispatchKeepsInv(s: State, a: Act)
    requires Inv(s)
    ensures Inv(ApplyDispatch(s, a))
  {
    DispatchedShape(s);
    hide Inv;
    var d := s.disp;
    match a
    case Wake => if d.Asleep? { IdleStepsKeepInv(s, a); }
    case TakeJob => if d.Draining? { TakeJobKeepsInv(s); }
    case NoCandidate => if d.Held? { IdleStepsKeepInv(s, a); }
    case Choose(i) => if d.Held? && Best(s, i) { ChooseKeepsInv(s, i); }
    case Push => if d.Chosen? { if s.insts[d.inst].closed { PanicKeepsInv(s); } else { PushKeepsInv(s); } }
    case RollBack => if d.RollingBack? { RollBackKeepsInv(s); }
    case PutBack => if d.Failed? { PutBackKeepsInv(s); }
    case _ =>
  }

  lemma DispatchedShape(s: State)
    requires Inv(s)
    ensures s.disp.Chosen? || s.disp.RollingBack? ==> s.disp.inst < |s.insts|
  {
    hide Counters, JobsOnce, InstOk;
  }

  lemma SendKeepsInv(s: State, a: Act)
    requires Inv(s)
    ensures Inv(ApplySend(s, a))
  {
    hide Inv;
    match a
    case SendTake(i) =>
      if i < |s.insts| && s.insts[i].sender.Ready? && s.insts[i].buffer != [] {
        SendTakeKeepsInv(s, i);
      }
    case SendOk(i) => if i < |s.insts| && s.insts[i].sender.Holding? { SendOutcomeKeepsInv(s, i, a); }
    case SendFail(i) => if i < |s.insts| && s.insts[i].sender.Holding? { SendOutcomeKeepsInv(s, i, a); }
    case SendEnd(i) =>
      if i < |s.insts| && s.insts[i].sender.Ready? && s.insts[i].buffer == [] && s.insts[i].closed {
        SendEndKeepsInv(s, i);
      }
    case _ =>
  }

  lemma StreamKeepsInv(s: State, a: Act)
    requires Inv(s) && !s.panicked
    ensures Inv(ApplyStream(s, a))
  {
    hide Inv;
    match a
    case Open => OpenKeepsInv(s);
    case Connect(k, sid) =>
      if k < |s.streams| && (s.streams[k].Opened? || s.streams[k].Connected?) {
        ConnectKeepsInv(s, k, sid);
      }
    case ConnectOk(k) => if k < |s.streams| && s.streams[k].Connecting? { ConnectOkKeepsInv(s, k); }
    case StatusArrives(k, st) =>
      if k < |s.streams| && s.streams[k].Connected? && st.available >= 0 && st.waiting >= 0 {
        StatusKeepsInv(s, k, st);
      }
    case Disconnect(k) => HangUpKeepsInv(s, k);
    case Sweep => SweepKeepsInv(s, a);
    case CloseAll => SweepKeepsInv(s, a);
    case _ =>
  }

  lemma HangUpKeepsInv(s: State, k: nat)
    requires Inv(s)
    ensures Inv(ApplyStream(s, Disconnect(k)))
  {
    if k < |s.streams| && Joined(s.streams[k]) {
      StreamsKnow(s, k);
      hide Inv;
      if s.insts[s.streams[k].inst].closed { PanicKeepsInv(s); } else { DisconnectKeepsInv(s, k); }
    } else if k < |s.streams| && s.streams[k].Opened? {
      CloseUnjoinedKeepsInv(s, k);
    } else {
      hide Inv;
    }
  }

  lemma CloseUnjoinedKeepsInv(s: State, k: nat)
    requires Inv(s) && k < |s.streams| && s.streams[k].Opened?
    ensures Inv(SetStream(s, k, Closed))
  {
    hide Gather, InstJobs, InstOk, CounterOk, Upto;
  }

  lemma StepKeepsInv(s: State, a: Act)
    requires Inv(s)
    ensures Inv(Apply(s, a))
  {
    hide ApplyDispatch, ApplySend, ApplyStream, Inv;
    if !s.panicked {
      DispatchKeepsInv(s, a);
      SendKeepsInv(s, a);
      StreamKeepsInv(s, a);
      SubmitKeepsInv(s);
      if a.Elapse? { ElapseKeepsInv(s, a); }
    }
  }

  lemma ElapseKeepsInv(s: State, a: Act)
    requires Inv(s) && a.Elapse?
    ensures Inv(Apply(s, a))
  {
    hide Gather, InstJobs, InstOk, CounterOk, Upto;
  }

  /** In every interleaving every job is in one place, and every instance's optimistic counters
      agree with its last report as CounterOk says. */
  lemma {:induction false} EveryScheduleKeepsInv(acts: seq<Act>)
    ensures Inv(Exec(Init(), acts))
  {
    if acts != [] {
      EveryScheduleKeepsInv(acts[..|acts| - 1]);
      hide Inv;
      StepKeepsInv(Exec(Init(), acts[..|acts| - 1]), acts[|acts| - 1]);
    }
  }
}
