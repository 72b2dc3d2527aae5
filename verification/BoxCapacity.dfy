/** Exactly how many boxes a server offers, and exactly when it never offers one again. */
module BoxCapacity {
  import opened Folds
  import opened BoxAllocator
  import opened BoxInvariant
  import opened BoxTheorems

  // ------------------------------------------------- the count, exactly

  /** The box of a goroutine that has not counted it as available yet. */
  function UncountedBoxes(p: Proc): multiset<nat> {
    if p.Running? || p.HandingOff? || p.Returning? then multiset{p.box} else multiset{}
  }

  /** 1 while the worker has a box of a Reserve that it has not launched, or one waits for it in its channel. */
  ghost function WithWorker(s: State): nat {
    var w := s.worker;
    if w.Received? || w.Reserved? || (w.Waiting? && w.ch < |s.chans| && s.chans[w.ch].buffer != []) then 1 else 0
  }

  /** The channels with a box inside. */
  function Full(cs: seq<Channel>): (full: set<ChanId>)
    ensures forall c: nat :: c in full <==> c < |cs| && cs[c].buffer != []
  {
    if cs == [] then {} else
    var n := |cs| - 1;
    Full(cs[..n]) + if cs[n].buffer != [] then {n} else {}
  }

  lemma {:induction false} FullWeighExactly(cs: seq<Channel>)
    requires forall c :: 0 <= c < |cs| ==> |cs[c].buffer| <= 1
    ensures |Gather(cs, Buffered)| == |Full(cs)|
  {
    if cs != [] {
      FullWeighExactly(cs[..|cs| - 1]);
    }
  }

  /** Every box inside a channel is stranded, but the one that waits for the worker. */
  lemma BufferedExactly(s: State)
    requires ChannelsOnce(s)
    ensures |Gather(s.chans, Buffered)| ==
      |Stranded(s)| + if s.worker.Waiting? && s.worker.ch < |s.chans| && s.chans[s.worker.ch].buffer != [] then 1 else 0
  {
    StrandedLaw(s);
    BuffersSmall(s);
    FullWeighExactly(s.chans);
    StrandedAreFull(s);
    hide Gather, ChannelsOnce, Stranded, Full;
  }

  lemma BuffersSmall(s: State)
    requires ChannelsOnce(s)
    ensures forall c :: 0 <= c < |s.chans| ==> |s.chans[c].buffer| <= 1
    ensures s.worker.Waiting? ==> s.worker.ch !in s.timedOut
  {
    hide Gather, OpenChans, Unsent;
  }

  lemma StrandedAreFull(s: State)
    requires ChannelsOnce(s)
    ensures var own: set<ChanId> := if s.worker.Waiting? && s.worker.ch < |s.chans| && s.chans[s.worker.ch].buffer != []
                       then {s.worker.ch} else {};
      Full(s.chans) == Stranded(s) + own && Stranded(s) !! own
  {
    FullAreAwaited(s);
    BuffersSmall(s);
    hide Gather, ChannelsOnce;
    var own: set<ChanId> := if s.worker.Waiting? && s.worker.ch < |s.chans| && s.chans[s.worker.ch].buffer != []
                            then {s.worker.ch} else {};
    forall c: nat ensures c in Full(s.chans) <==> c in Stranded(s) + own {
      assert c in Stranded(s) ==> c < |s.chans| && s.chans[c].buffer != [];
    }
  }

  lemma BoxesCounted(s: State)
    requires BoxesOnce(s)
    ensures |s.free| + |WorkerBoxes(s.worker)| + |Gather(s.procs, UncountedBoxes)| + |Gather(s.procs, CountedBoxes)|
            + |Gather(s.chans, Buffered)| == s.n
  {
    GatherSplit(s.procs, ProcBoxes, UncountedBoxes, CountedBoxes);
    hide Gather;
    assert |BoxesHeld(s)| == s.n;
  }

  /** The counter in terms of what is in use and what is lost, in every reachable state. */
  lemma CountExactly(s: State)
    requires Inv(s)
    ensures s.count == s.n - s.handoffs - |Stranded(s)|
                       - |Gather(s.procs, UncountedBoxes)| - AddsInFlight(s) - WithWorker(s)
  {
    BoxesCounted(s);
    BufferedExactly(s);
    hide Gather, ChannelsOnce, BoxesOnce, Stranded, AddsInFlight;
  }

  /** The worker is idle and every other goroutine has ended. */
  predicate AtRest(s: State) {
    s.worker.Idle? && forall i :: 0 <= i < |s.procs| ==> s.procs[i].Done?
  }

  lemma NoneInHands(ps: seq<Proc>)
    requires forall i :: 0 <= i < |ps| ==> ps[i].Done?
    ensures Gather(ps, UncountedBoxes) == Gather(ps, AddToken) == multiset{}
  {
    GatherNone(ps, UncountedBoxes);
    GatherNone(ps, AddToken);
  }

  /** At rest a server offers all its boxes but one for each received hand-off and each stranded box. */
  lemma RestLaw(s: State)
    requires Inv(s) && AtRest(s)
    ensures s.count == s.n - s.handoffs - |Stranded(s)|
    ensures s.AvailableCount() > 0 <==> s.handoffs + |Stranded(s)| < s.n
    ensures s.handoffs + |Stranded(s)| < s.n ==> s.AvailableCount() == s.n - s.handoffs - |Stranded(s)|
  {
    hide Gather, Inv, Stranded;
    CountExactly(s);
    NoneInHands(s.procs);
  }

  // ------------------------------------------------- boxes that will be lost

  function RunningBox(p: Proc): multiset<nat> { if p.Running? then multiset{p.box} else multiset{} }

  /** Boxes whose release may still go to a waiter. */
  function InUse(s: State): nat { |Gather(s.procs, RunningBox)| + |Gather(s.procs, UnsentChans)| }

  /** Channels a releaser will send into; with an idle worker all of them are given up. */
  function StaleWaiters(s: State): nat { |s.waiting| + |Gather(s.procs, UnsentChans)| }

  function Min(a: nat, b: nat): nat { if a < b then a else b }

  /** Stranded boxes, and boxes in use that will be. */
  ghost function Lost(s: State): nat { |Stranded(s)| + Min(InUse(s), StaleWaiters(s)) }

  /** The same, by the boxes inside channels. */
  function LostBoxes(s: State): nat { |Gather(s.chans, Buffered)| + Min(InUse(s), StaleWaiters(s)) }

  lemma LostIsLostBoxes(s: State)
    requires Inv(s) && s.worker.Idle?
    ensures |Stranded(s)| <= Lost(s) == LostBoxes(s)
  {
    BufferedExactly(s);
    hide Gather, Inv, Stranded, InUse, StaleWaiters;
  }

  /** A goroutine steps: what it changes in the two counts. */
  lemma MoveUse(s: State, i: nat, p: Proc, t: State)
    requires i < |s.procs| && t.procs == s.procs[i := p]
    ensures |Gather(t.procs, RunningBox)| == |Gather(s.procs, RunningBox)| - |RunningBox(s.procs[i])| + |RunningBox(p)|
    ensures |Gather(t.procs, UnsentChans)| ==
      |Gather(s.procs, UnsentChans)| - |UnsentChans(s.procs[i])| + |UnsentChans(p)|
  {
    GatherUpdate(s.procs, i, p, RunningBox);
    GatherUpdate(s.procs, i, p, UnsentChans);
    hide Gather;
  }

  /** A step that neither releases a box nor sends it. */
  lemma QuietKeepsLost(s: State, i: nat, p: Proc, t: State)
    requires i < |s.procs| && t.procs == s.procs[i := p] && t.waiting == s.waiting && t.chans == s.chans
    requires !s.procs[i].Running? && !s.procs[i].HandingOff? && !p.Running? && !p.HandingOff?
    ensures LostBoxes(t) == LostBoxes(s)
  {
    hide Gather;
    MoveUse(s, i, p, t);
  }

  lemma AddKeepsLost(s: State, a: Act)
    ensures LostBoxes(ApplyAdd(s, a)) == LostBoxes(s)
  {
    var t := ApplyAdd(s, a);
    hide LostBoxes;
    match a
    case StartAdd(job) => StartAddKeepsLost(s, job);
    case AddOk(i) => if i < |s.procs| && s.procs[i].Adding? { QuietKeepsLost(s, i, AddReturning, t); }
    case AddFail(i) => if i < |s.procs| && s.procs[i].Adding? { QuietKeepsLost(s, i, AddReturning, t); }
    case AddReturn(i) => if i < |s.procs| && s.procs[i].AddReturning? { QuietKeepsLost(s, i, Done, t); }
    case _ =>
  }

  lemma StartAddKeepsLost(s: State, job: Job)
    ensures LostBoxes(ApplyAdd(s, StartAdd(job))) == LostBoxes(s)
  {
    GatherAppend(s.procs, Adding(job), RunningBox);
    GatherAppend(s.procs, Adding(job), UnsentChans);
    hide Gather;
  }

  lemma FinishKeepsLost(s: State, i: nat)
    requires i < |s.procs| && s.procs[i].Running?
    ensures LostBoxes(ApplyRelease(s, Finish(i))) == LostBoxes(s)
  {
    hide Gather;
    var t := ApplyRelease(s, Finish(i));
    var p := if s.waiting == [] then Returning(s.procs[i].box) else HandingOff(s.procs[i].box, s.waiting[0]);
    assert t.procs == s.procs[i := p] && t.chans == s.chans;
    assert |t.waiting| == |s.waiting| - if s.waiting == [] then 0 else 1;
    hide ApplyRelease;
    MoveUse(s, i, p, t);
    assert |RunningBox(s.procs[i])| == 1 && |RunningBox(p)| == |UnsentChans(s.procs[i])| == 0;
    assert |UnsentChans(p)| == if s.waiting == [] then 0 else 1;
    hide RunningBox, UnsentChans;
  }

  /** What a releaser finds: its waiter's channel open and empty, later still open. */
  lemma ReleaserFinds(s: State, i: nat)
    requires Inv(s) && i < |s.procs|
    ensures s.procs[i].HandingOff? ==> s.procs[i].ch < |s.chans| && s.chans[s.procs[i].ch] == Channel([], false)
    ensures s.procs[i].Closing? ==> s.procs[i].ch < |s.chans| && !s.chans[s.procs[i].ch].closed
    ensures !s.panicked
  {
    hide Gather, BoxesOnce, CounterLaw, ChannelsOnce;
    if s.procs[i].HandingOff? {
      HandOffKeepsChannels(s, i);
    } else if s.procs[i].Closing? {
      CloseKeepsChannels(s, i);
    }
  }

  lemma HandOffKeepsLost(s: State, i: nat)
    requires Inv(s) && i < |s.procs| && s.procs[i].HandingOff?
    ensures LostBoxes(ApplyRelease(s, HandOff(i))) == LostBoxes(s)
  {
    hide Gather, Inv;
    var p, t := s.procs[i], ApplyRelease(s, HandOff(i));
    ReleaserFinds(s, i);
    MoveUse(s, i, Closing(p.ch), t);
    GatherUpdate(s.chans, p.ch, Channel([p.box], false), Buffered);
    assert t.chans == s.chans[p.ch := Channel([p.box], false)] && t.procs == s.procs[i := Closing(p.ch)];
    Sent(Gather(s.chans, Buffered), p.box);
  }

  lemma Sent(g: multiset<nat>, b: Box)
    ensures |g - multiset{} + multiset{b}| == |g| + 1
  {
  }

  lemma CloseKeepsLost(s: State, i: nat)
    requires Inv(s) && i < |s.procs| && s.procs[i].Closing?
    ensures LostBoxes(ApplyRelease(s, CloseChan(i))) == LostBoxes(s)
  {
    hide Gather, Inv;
    var c, t := s.procs[i].ch, ApplyRelease(s, CloseChan(i));
    ReleaserFinds(s, i);
    MoveUse(s, i, Done, t);
    GatherSame(s.chans, c, s.chans[c].(closed := true), Buffered);
    assert t.chans == s.chans[c := s.chans[c].(closed := true)] && t.procs == s.procs[i := Done];
  }

  lemma ReleaseKeepsLost(s: State, a: Act)
    requires Inv(s)
    ensures LostBoxes(ApplyRelease(s, a)) == LostBoxes(s)
  {
    var t := ApplyRelease(s, a);
    hide LostBoxes, Inv;
    match a
    case Finish(i) => if i < |s.procs| && s.procs[i].Running? { FinishKeepsLost(s, i); }
    case HandOff(i) => if i < |s.procs| && s.procs[i].HandingOff? { HandOffKeepsLost(s, i); }
    case CloseChan(i) => if i < |s.procs| && s.procs[i].Closing? { CloseKeepsLost(s, i); }
    case CountUp(i) => if i < |s.procs| && s.procs[i].Returning? { QuietKeepsLost(s, i, Enqueuing(s.procs[i].box), t); }
    case PutBack(i) => if i < |s.procs| && s.procs[i].Enqueuing? { QuietKeepsLost(s, i, Done, t); }
    case _ =>
  }

  /** An idle worker does nothing but look at the count. */
  lemma IdleWorker(s: State, a: Act)
    requires s.worker.Idle?
    ensures ApplyWorker(s, a) == if a == Check && s.AvailableCount() > 0 then s.(worker := Checked) else s
    ensures ApplyAdd(s, a).worker.Idle? && ApplyAdd(s, a).handoffs == s.handoffs
    ensures ApplyRelease(s, a).worker.Idle? && ApplyRelease(s, a).handoffs == s.handoffs
  {
  }

  /** While the worker is idle no step changes how many boxes are or will be lost. */
  lemma LostStep(s: State, a: Act)
    requires Inv(s) && s.worker.Idle? && s.AvailableCount() == 0
    ensures var t := Apply(s, a); t.worker.Idle? && t.handoffs == s.handoffs && LostBoxes(t) == LostBoxes(s)
  {
    IdleWorker(s, a);
    AddKeepsLost(s, a);
    ReleaseKeepsLost(s, a);
    hide Inv, LostBoxes, ApplyAdd, ApplyWorker, ApplyRelease;
  }

  lemma RunningUncounted(s: State)
    ensures |Gather(s.procs, RunningBox)| + |Gather(s.procs, UnsentChans)| <= |Gather(s.procs, UncountedBoxes)|
  {
    HandsUncounted(s.procs);
  }

  lemma {:induction false} HandsUncounted(ps: seq<Proc>)
    ensures |Gather(ps, RunningBox)| + |Gather(ps, UnsentChans)| <= |Gather(ps, UncountedBoxes)|
  {
    if ps != [] {
      var p := ps[|ps| - 1];
      HandsUncounted(ps[..|ps| - 1]);
      assert |RunningBox(p)| + |UnsentChans(p)| <= |UncountedBoxes(p)|;
    }
  }

  lemma NothingOffered(s: State)
    requires Inv(s) && s.worker.Idle?
    ensures s.handoffs + LostBoxes(s) >= s.n ==> s.AvailableCount() == 0
  {
    CountExactly(s);
    BufferedExactly(s) by { hide Gather, BoxesOnce, CounterLaw, ChannelFacts; }
    RunningUncounted(s);
    hide Gather, Inv, Stranded;
  }

  lemma {:induction false} IdleForever(s: State, acts: seq<Act>)
    requires Inv(s) && s.worker.Idle? && s.handoffs + LostBoxes(s) >= s.n
    ensures var t := Exec(s, acts);
      Inv(t) && t.worker.Idle? && t.n == s.n && t.handoffs + LostBoxes(t) >= t.n && t.AvailableCount() == 0
  {
    hide Inv, LostBoxes, Apply;
    if acts == [] {
      NothingOffered(s);
    } else {
      var t, a := Exec(s, acts[..|acts| - 1]), acts[|acts| - 1];
      IdleForever(s, acts[..|acts| - 1]);
      LostStep(t, a);
      StepKeepsInv(t, a);
      NothingOffered(Apply(t, a));
    }
  }

  // ------------------------------------------------- every goroutine ends

  /** How many more steps a goroutine takes. */
  function Steps(p: Proc): nat {
    match p
    case Running(_, _) => 3
    case HandingOff(_, _) => 2
    case Returning(_) => 2
    case Adding(_) => 2
    case AddReturning => 1
    case Closing(_) => 1
    case Enqueuing(_) => 1
    case Done => 0
  }

  function AllSteps(ps: seq<Proc>): nat {
    if ps == [] then 0 else AllSteps(ps[..|ps| - 1]) + Steps(ps[|ps| - 1])
  }

  lemma {:induction false} StepsUpdate(ps: seq<Proc>, i: nat, p: Proc)
    requires i < |ps|
    ensures AllSteps(ps[i := p]) + Steps(ps[i]) == AllSteps(ps) + Steps(p)
  {
    var n := |ps| - 1;
    if i == n {
      assert ps[i := p][..n] == ps[..n];
    } else {
      StepsUpdate(ps[..n], i, p);
      assert ps[i := p][..n] == ps[..n][i := p];
    }
  }

  lemma {:induction false} StepsLeft(ps: seq<Proc>) returns (i: nat)
    requires AllSteps(ps) > 0
    ensures i < |ps| && !ps[i].Done?
  {
    var n := |ps| - 1;
    if ps[n].Done? {
      i := StepsLeft(ps[..n]);
    } else {
      i := n;
    }
  }

  lemma {:induction false} NoStepsLeft(ps: seq<Proc>)
    requires AllSteps(ps) == 0
    ensures forall i :: 0 <= i < |ps| ==> ps[i].Done?
  {
    if ps != [] {
      NoStepsLeft(ps[..|ps| - 1]);
    }
  }

  function NextAct(p: Proc, i: nat): Act {
    match p
    case Running(_, _) => Finish(i)
    case HandingOff(_, _) => HandOff(i)
    case Returning(_) => CountUp(i)
    case Adding(_) => AddOk(i)
    case Closing(_) => CloseChan(i)
    case Enqueuing(_) => PutBack(i)
    case _ => AddReturn(i)
  }

  lemma ProgressAdd(s: State, i: nat)
    requires i < |s.procs| && (s.procs[i].Adding? || s.procs[i].AddReturning?)
    ensures var t := ApplyAdd(s, NextAct(s.procs[i], i));
      |t.procs| == |s.procs| && t.procs == s.procs[i := t.procs[i]] && Steps(t.procs[i]) == Steps(s.procs[i]) - 1
  {
  }

  lemma ProgressRelease(s: State, i: nat)
    requires i < |s.procs| && (s.procs[i].Running? || s.procs[i].Returning? || s.procs[i].Enqueuing?)
    ensures var t := ApplyRelease(s, NextAct(s.procs[i], i));
      |t.procs| == |s.procs| && t.procs == s.procs[i := t.procs[i]] && Steps(t.procs[i]) == Steps(s.procs[i]) - 1
  {
  }

  lemma ProgressHandOver(s: State, i: nat)
    requires i < |s.procs| && (s.procs[i].HandingOff? || s.procs[i].Closing?) && s.procs[i].ch < |s.chans|
    requires var c := s.chans[s.procs[i].ch]; !c.closed && (s.procs[i].HandingOff? ==> c.buffer == [])
    ensures var t := ApplyRelease(s, NextAct(s.procs[i], i));
      |t.procs| == |s.procs| && t.procs == s.procs[i := t.procs[i]] && Steps(t.procs[i]) == Steps(s.procs[i]) - 1
  {
  }

  /** A goroutine that has not ended can take its next step. */
  lemma Progress(s: State, i: nat)
    requires Inv(s) && i < |s.procs| && !s.procs[i].Done?
    ensures var t := Apply(s, NextAct(s.procs[i], i));
      |t.procs| == |s.procs| && t.procs == s.procs[i := t.procs[i]] && Steps(t.procs[i]) == Steps(s.procs[i]) - 1
  {
    hide Inv, ApplyAdd, ApplyRelease, ApplyWorker;
    ReleaserFinds(s, i);
    if s.procs[i].Adding? || s.procs[i].AddReturning? {
      ProgressAdd(s, i);
    } else if s.procs[i].HandingOff? || s.procs[i].Closing? {
      ProgressHandOver(s, i);
    } else {
      ProgressRelease(s, i);
    }
  }

  /** From every good state with an idle worker the other goroutines can all end. */
  lemma {:induction false} Drain(s: State) returns (acts: seq<Act>)
    requires Inv(s) && s.worker.Idle?
    ensures var t := Exec(s, acts);
      Inv(t) && AtRest(t) && t.n == s.n && t.handoffs == s.handoffs && LostBoxes(t) == LostBoxes(s)
    decreases AllSteps(s.procs)
  {
    hide Inv, LostBoxes, Apply;
    if AllSteps(s.procs) == 0 {
      acts := [];
      NoStepsLeft(s.procs);
    } else {
      var i := StepsLeft(s.procs);
      var a := NextAct(s.procs[i], i);
      var t := Apply(s, a);
      Progress(s, i);
      StepsUpdate(s.procs, i, t.procs[i]);
      StepKeepsInv(s, a);
      NextKeepsLost(s, i);
      var rest := Drain(t);
      acts := [a] + rest;
      ExecConcat(s, [a], rest);
      assert [a][..0] == [];
    }
  }

  lemma NextKeepsLost(s: State, i: nat)
    requires Inv(s) && s.worker.Idle? && i < |s.procs|
    ensures var t := Apply(s, NextAct(s.procs[i], i));
      t.worker.Idle? && t.handoffs == s.handoffs && LostBoxes(t) == LostBoxes(s)
  {
    hide Inv, LostBoxes, ApplyAdd, ApplyWorker, ApplyRelease;
    var a := NextAct(s.procs[i], i);
    IdleWorker(s, a);
    AddKeepsLost(s, a);
    ReleaseKeepsLost(s, a);
  }

  /** With fewer boxes lost an idle worker gets to see a box offered again. */
  lemma Revives(s: State) returns (acts: seq<Act>)
    requires Inv(s) && s.worker.Idle?
    ensures s.handoffs + LostBoxes(s) < s.n ==>
              Exec(s, acts).AvailableCount() > 0 && Exec(s, acts + [Check]).worker.Checked?
  {
    hide Inv, Exec, Apply, Lost, LostBoxes, Stranded;
    acts := Drain(s);
    var t := Exec(s, acts);
    RestLaw(t);
    LostIsLostBoxes(t);
    NeverPanics(t);
    LooksAgain(s, acts);
  }

  lemma NeverPanics(s: State)
    requires Inv(s)
    ensures !s.panicked
  {
  }

  lemma LooksAgain(s: State, acts: seq<Act>)
    ensures var t := Exec(s, acts);
      !t.panicked && t.worker.Idle? && t.AvailableCount() > 0 ==> Exec(s, acts + [Check]).worker.Checked?
  {
    assert (acts + [Check])[..|acts|] == acts;
  }

  /** An idle worker stays idle in every continuation, and AvailableCount 0 in every state of it, exactly when
      received hand-offs, stranded boxes and boxes in use bound for given-up channels make up all boxes. */
  lemma ExhaustedExactly(s: State)
    requires Inv(s) && s.worker.Idle?
    ensures (forall acts :: Exec(s, acts).worker.Idle?) <==> s.handoffs + Lost(s) >= s.n
    ensures (forall acts :: Exec(s, acts).AvailableCount() == 0) <==> s.handoffs + Lost(s) >= s.n
  {
    hide Inv, LostBoxes, Lost, Exec;
    LostIsLostBoxes(s);
    if s.handoffs + LostBoxes(s) >= s.n {
      forall acts ensures Exec(s, acts).worker.Idle? && Exec(s, acts).AvailableCount() == 0 {
        IdleForever(s, acts);
      }
    } else {
      var acts := Revives(s);
      assert !Exec(s, acts + [Check]).worker.Idle?;
    }
  }
}
