/** The allocator's invariant holds after every schedule. */
module BoxInvariant {
  import opened Folds
  import opened BoxAllocator

  // ------------------------------------------------- what one moving goroutine changes

  lemma MoveBoxes(s: State, i: nat, p: Proc, t: State)
    requires i < |s.procs| && t.procs == s.procs[i := p]
    requires t.free == s.free && t.worker == s.worker && t.chans == s.chans
    ensures ProcBoxes(s.procs[i]) <= BoxesHeld(s)
    ensures BoxesHeld(t) == BoxesHeld(s) - ProcBoxes(s.procs[i]) + ProcBoxes(p)
    ensures ProcBoxes(p) == ProcBoxes(s.procs[i]) ==> BoxesHeld(t) == BoxesHeld(s)
  {
    hide Gather, ProcBoxes, WorkerBoxes;
    GatherUpdate(s.procs, i, p, ProcBoxes);
    Exchange(multiset(s.free) + WorkerBoxes(s.worker), Gather(s.procs, ProcBoxes), Gather(s.chans, Buffered),
             ProcBoxes(s.procs[i]), ProcBoxes(p));
  }

  lemma Exchange(a: multiset<nat>, g: multiset<nat>, c: multiset<nat>, x: multiset<nat>, y: multiset<nat>)
    requires x <= g
    ensures x <= a + g + c && a + (g - x + y) + c == a + g + c - x + y
    ensures x == y ==> a + (g - x + y) + c == a + g + c
  {
  }

  lemma MoveCounts(s: State, i: nat, p: Proc)
    requires i < |s.procs|
    ensures |Gather(s.procs[i := p], CountedBoxes)|
         == |Gather(s.procs, CountedBoxes)| - |CountedBoxes(s.procs[i])| + |CountedBoxes(p)|
    ensures AddsInFlight(SetProc(s, i, p)) == AddsInFlight(s) - |AddToken(s.procs[i])| + |AddToken(p)|
  {
    hide Gather;
    GatherUpdate(s.procs, i, p, CountedBoxes);
    GatherUpdate(s.procs, i, p, AddToken);
  }

  // ------------------------------------------------- the life of a channel

  lemma FactsMake(chans: seq<Channel>, open: multiset<nat>, unsent: multiset<nat>, awaited: set<ChanId>)
    requires ChannelFacts(chans, open, unsent, awaited)
    ensures |chans| !in awaited
    ensures ChannelFacts(chans + [Channel([], false)], open + multiset{|chans|}, unsent +
      multiset{|chans|}, awaited + {|chans|})
  {
  }

  lemma FactsSend(chans: seq<Channel>, open: multiset<nat>, unsent: multiset<nat>, awaited: set<ChanId>, c: nat, b: Box)
    requires ChannelFacts(chans, open, unsent, awaited) && unsent <= open && c in unsent
    ensures c < |chans| && chans[c] == Channel([], false)
    ensures ChannelFacts(chans[c := Channel([b], false)], open, unsent - multiset{c}, awaited)
  {
    assert unsent[c] <= open[c];
  }

  lemma FactsReceive(chans: seq<Channel>, open: multiset<nat>, unsent: multiset<nat>, awaited: set<ChanId>, c: nat)
    requires ChannelFacts(chans, open, unsent, awaited) && c < |chans| && chans[c].buffer != []
    ensures ChannelFacts(chans[c := chans[c].(buffer := chans[c].buffer[1..])], open, unsent, awaited - {c})
  {
  }

  lemma FactsClose(chans: seq<Channel>, open: multiset<nat>, unsent: multiset<nat>, awaited: set<ChanId>, c: nat)
    requires ChannelFacts(chans, open, unsent, awaited) && c in open
    ensures c < |chans| && !chans[c].closed
    ensures ChannelFacts(chans[c := chans[c].(closed := true)], open - multiset{c}, unsent, awaited)
  {
  }

  /** A waiter's channel is closed only with its box still inside. */
  lemma FactsServed(chans: seq<Channel>, open: multiset<nat>, unsent: multiset<nat>, awaited: set<ChanId>, c: nat)
    requires ChannelFacts(chans, open, unsent, awaited) && unsent <= open && c in awaited
    ensures c < |chans| && (chans[c].closed ==> chans[c].buffer != [])
  {
    assert unsent[c] <= open[c];
  }

  lemma UnsentAreOpen(s: State)
    ensures Unsent(s) <= OpenChans(s)
  {
    GatherWithin(s.procs, UnsentChans, ProcChans);
  }

  /** ChannelsOnce reads no more of a state than this. */
  lemma SameChannels(s: State, t: State)
    requires ChannelsOnce(s)
    requires t.waiting == s.waiting && t.chans == s.chans && t.timedOut == s.timedOut
    requires t.worker == s.worker || (!t.worker.Waiting? && !s.worker.Waiting?)
    requires Gather(t.procs, ProcChans) == Gather(s.procs, ProcChans)
    requires Gather(t.procs, UnsentChans) == Gather(s.procs, UnsentChans)
    ensures ChannelsOnce(t)
  {
    hide Gather, ChannelFacts;
    assert Unsent(t) == Unsent(s) && OpenChans(t) == OpenChans(s);
  }

  /** A goroutine that holds no channel before or after its step leaves the channels alone. */
  lemma MoveNoChannels(s: State, i: nat, p: Proc, t: State)
    requires ChannelsOnce(s) && i < |s.procs|
    requires ProcChans(s.procs[i]) == ProcChans(p) == multiset{}
    requires t.procs == s.procs[i := p] && t.worker == s.worker
    requires t.waiting == s.waiting && t.chans == s.chans && t.timedOut == s.timedOut
    ensures ChannelsOnce(t)
  {
    hide Gather, ChannelsOnce;
    GatherSame(s.procs, i, p, ProcChans);
    GatherSame(s.procs, i, p, UnsentChans);
    SameChannels(s, t);
  }

  // ------------------------------------------------- AddJob

  lemma StartAddKeepsInv(s: State, job: nat)
    requires Inv(s)
    ensures Inv(ApplyAdd(s, StartAdd(job)))
  {
    hide Gather, ChannelsOnce, Upto;
    var p := Adding(job);
    GatherAppend(s.procs, p, ProcBoxes);
    GatherAppend(s.procs, p, CountedBoxes);
    GatherAppend(s.procs, p, ProcChans);
    GatherAppend(s.procs, p, UnsentChans);
    GatherAppend(s.procs, p, AddToken);
    SameChannels(s, ApplyAdd(s, StartAdd(job)));
  }

  /** An AddJob call moves on: no box or channel moves, and the count follows the calls in flight. */
  ghost predicate AddMoves(s: State, i: nat, p: Proc, t: State) {
    && i < |s.procs| && (s.procs[i].Adding? || s.procs[i].AddReturning?) && (p.AddReturning? || p.Done?)
    && t.procs == s.procs[i := p] && t.worker == s.worker && t.free == s.free && t.n == s.n && t.panicked == s.panicked
    && t.waiting == s.waiting && t.chans == s.chans && t.timedOut == s.timedOut && t.handoffs == s.handoffs
    && t.count == s.count + if p.Done? then 1 else 0
  }

  lemma AddMovesCount(s: State, i: nat, p: Proc, t: State)
    requires CounterLaw(s) && AddMoves(s, i, p, t)
    ensures CounterLaw(t)
  {
    hide Gather;
    MoveCounts(s, i, p);
  }

  lemma AddMovesBoxes(s: State, i: nat, p: Proc, t: State)
    requires AddMoves(s, i, p, t)
    ensures BoxesHeld(t) == BoxesHeld(s)
  {
    hide BoxesHeld;
    assert ProcBoxes(s.procs[i]) == ProcBoxes(p);
    MoveBoxes(s, i, p, t);
  }

  lemma AddMovesKeepInv(s: State, i: nat, p: Proc, t: State)
    requires Inv(s) && AddMoves(s, i, p, t)
    ensures Inv(t)
  {
    hide Gather, ChannelsOnce, BoxesHeld, CounterLaw, Upto;
    AddMovesCount(s, i, p, t);
    AddMovesBoxes(s, i, p, t);
    MoveNoChannels(s, i, p, t);
  }

  lemma AddEndsKeepsInv(s: State, i: nat, a: Act)
    requires Inv(s) && i < |s.procs| && s.procs[i].Adding? && (a == AddOk(i) || a == AddFail(i))
    ensures Inv(ApplyAdd(s, a))
  {
    hide Inv;
    AddMovesKeepInv(s, i, AddReturning, ApplyAdd(s, a));
  }

  lemma AddReturnKeepsInv(s: State, i: nat)
    requires Inv(s) && i < |s.procs| && s.procs[i].AddReturning?
    ensures Inv(ApplyAdd(s, AddReturn(i)))
  {
    hide Inv;
    AddMovesKeepInv(s, i, Done, ApplyAdd(s, AddReturn(i)));
  }

  // ------------------------------------------------- the worker

  /** A box passing between the free queue and the worker stays held. */
  lemma SameHands(s: State, t: State)
    requires t.procs == s.procs && t.chans == s.chans
    requires multiset(t.free) + WorkerBoxes(t.worker) == multiset(s.free) + WorkerBoxes(s.worker)
    ensures BoxesHeld(t) == BoxesHeld(s)
  {
    hide Gather, WorkerBoxes;
  }

  /** The worker steps without touching a box or a channel. */
  lemma WorkerMoves(s: State, t: State)
    requires Inv(s) && t == s.(worker := t.worker, jobs := t.jobs)
    requires WorkerBoxes(s.worker) == WorkerBoxes(t.worker) == multiset{}
    requires !s.worker.Waiting? && !t.worker.Waiting?
    ensures Inv(t)
  {
    hide Gather, ChannelsOnce, Upto, BoxesHeld;
    SameHands(s, t);
    SameChannels(s, t);
  }

  /** The worker holds no box and waits on no channel. */
  predicate Boxless(w: Worker) { w.Idle? || w.Checked? || w.HasJob? || w.TimedOut? }

  lemma BoxlessMoves(s: State, t: State)
    requires Inv(s) && t == s.(worker := t.worker, jobs := t.jobs) && Boxless(s.worker) && Boxless(t.worker)
    ensures Inv(t)
  {
    hide Inv;
    WorkerMoves(s, t);
  }

  lemma CheckKeepsInv(s: State, a: Act)
    requires Inv(s) && (a == Check || a == Take || a == GiveBack)
    ensures Inv(ApplyWorker(s, a))
  {
    hide Inv;
    var t := ApplyWorker(s, a);
    assert t == s || (Boxless(s.worker) && Boxless(t.worker) && t == s.(worker := t.worker, jobs := t.jobs));
    hide ApplyWorker;
    if t != s {
      BoxlessMoves(s, t);
    }
  }

  lemma TryBoxKeepsInv(s: State)
    requires Inv(s) && s.worker.HasJob?
    ensures Inv(ApplyWorker(s, TryBox))
  {
    hide Gather, ChannelsOnce, Upto, BoxesHeld;
    var t := ApplyWorker(s, TryBox);
    SameHands(s, t) by { if s.free != [] { HeadTail(s.free); } }
    SameChannels(s, t);
  }

  lemma SubtractKeepsInv(s: State)
    requires Inv(s)
    ensures Inv(ApplyWorker(s, Subtract))
  {
    hide Gather, ChannelsOnce, Upto, BoxesHeld;
    var t := ApplyWorker(s, Subtract);
    SameHands(s, t);
    if t != s { SameChannels(s, t); }
  }

  lemma LaunchKeepsBoxes(s: State)
    requires s.worker.Reserved?
    ensures BoxesHeld(ApplyWorker(s, Launch)) == BoxesHeld(s)
  {
    hide Gather;
    GatherAppend(s.procs, Running(s.worker.job, s.worker.box), ProcBoxes);
  }

  lemma LaunchKeepsInv(s: State)
    requires Inv(s) && s.worker.Reserved?
    ensures Inv(ApplyWorker(s, Launch))
  {
    hide Gather, ChannelsOnce, Upto, BoxesHeld;
    var p, t := Running(s.worker.job, s.worker.box), ApplyWorker(s, Launch);
    GatherAppend(s.procs, p, CountedBoxes);
    GatherAppend(s.procs, p, ProcChans);
    GatherAppend(s.procs, p, UnsentChans);
    GatherAppend(s.procs, p, AddToken);
    LaunchKeepsBoxes(s);
    SameChannels(s, t);
  }

  lemma MakeChanKeepsChannels(s: State)
    requires ChannelsOnce(s) && s.worker.NoBox?
    ensures ChannelsOnce(ApplyWorker(s, MakeChan))
  {
    hide Gather, ChannelFacts;
    var t := ApplyWorker(s, MakeChan);
    var c := |s.chans|;
    FactsMake(s.chans, OpenChans(s), Unsent(s), Awaited(s));
    assert multiset(t.waiting) == multiset(s.waiting) + multiset{c};
    assert OpenChans(t) == OpenChans(s) + multiset{c};
    assert Unsent(t) == Unsent(s) + multiset{c};
    assert Awaited(t) == Awaited(s) + {c};
  }

  lemma MakeChanKeepsBoxes(s: State)
    requires s.worker.NoBox?
    ensures BoxesHeld(ApplyWorker(s, MakeChan)) == BoxesHeld(s)
  {
    hide Gather;
    GatherAppend(s.chans, Channel([], false), Buffered);
  }

  lemma MakeChanKeepsInv(s: State)
    requires Inv(s) && s.worker.NoBox?
    ensures Inv(ApplyWorker(s, MakeChan))
  {
    hide Gather, ChannelsOnce, Upto, BoxesHeld;
    MakeChanKeepsChannels(s);
    MakeChanKeepsBoxes(s);
  }

  lemma TimeoutKeepsInv(s: State)
    requires Inv(s) && s.worker.Waiting?
    ensures Inv(ApplyWorker(s, Timeout))
  {
    hide Gather, ChannelFacts, Upto;
    var t := ApplyWorker(s, Timeout);
    SameHands(s, t);
    assert Unsent(t) == Unsent(s) && OpenChans(t) == OpenChans(s) && Awaited(t) == Awaited(s);
  }

  lemma WaiterIsServed(s: State)
    requires ChannelsOnce(s) && s.worker.Waiting?
    ensures s.worker.ch < |s.chans|
    ensures s.chans[s.worker.ch].closed ==> s.chans[s.worker.ch].buffer != []
  {
    UnsentAreOpen(s);
    hide Gather, ChannelFacts;
    FactsServed(s.chans, OpenChans(s), Unsent(s), Awaited(s), s.worker.ch);
  }

  lemma TakenOut(g: multiset<nat>, b: multiset<nat>, h: multiset<nat>, a: multiset<nat>, c: multiset<nat>)
    requires b + h <= g
    ensures a + b + c + (g - (b + h) + h) == a + c + g
  {
  }

  lemma ReceiveKeepsBoxes(s: State)
    requires s.worker.Waiting? && s.worker.ch < |s.chans| && |s.chans[s.worker.ch].buffer| > 0
    ensures BoxesHeld(ApplyWorker(s, Receive)) == BoxesHeld(s)
  {
    hide Gather, ProcBoxes;
    var c := s.worker.ch;
    HeadTail(s.chans[c].buffer);
    GatherUpdate(s.chans, c, s.chans[c].(buffer := s.chans[c].buffer[1..]), Buffered);
    TakenOut(Gather(s.chans, Buffered), multiset{s.chans[c].buffer[0]}, multiset(s.chans[c].buffer[1..]),
             multiset(s.free), Gather(s.procs, ProcBoxes));
  }

  lemma ReceiveKeepsChannels(s: State)
    requires ChannelsOnce(s) && s.worker.Waiting?
    requires s.worker.ch < |s.chans| && s.chans[s.worker.ch].buffer != []
    ensures ChannelsOnce(ApplyWorker(s, Receive))
  {
    hide Gather, ChannelFacts;
    var t := ApplyWorker(s, Receive);
    FactsReceive(s.chans, OpenChans(s), Unsent(s), Awaited(s), s.worker.ch);
    assert OpenChans(t) == OpenChans(s) && Unsent(t) == Unsent(s);
    assert Awaited(t) == Awaited(s) - {s.worker.ch};
  }

  /** A waiter never reads the zero value of a closed channel: its box is still in the buffer. */
  lemma ReceiveKeepsInv(s: State)
    requires Inv(s) && s.worker.Waiting?
    ensures Inv(ApplyWorker(s, Receive))
    ensures s.chans[s.worker.ch].closed ==> s.chans[s.worker.ch].buffer != []
  {
    hide Gather, ChannelsOnce, Upto, BoxesHeld;
    WaiterIsServed(s);
    if s.chans[s.worker.ch].buffer != [] {
      ReceiveKeepsChannels(s);
      ReceiveKeepsBoxes(s);
    }
  }

  // ------------------------------------------------- Release

  /** The box stays in the same goroutine's hands, and nothing that is counted changes. */
  lemma FinishKeepsRest(s: State, i: nat, p: Proc, t: State)
    requires CounterLaw(s) && i < |s.procs| && s.procs[i].Running? && t.procs == s.procs[i := p]
    requires ProcBoxes(p) == multiset{s.procs[i].box} && CountedBoxes(p) == AddToken(p) == multiset{}
    requires t.free == s.free && t.worker == s.worker && t.chans == s.chans
    requires t.count == s.count && t.handoffs == s.handoffs
    ensures BoxesHeld(t) == BoxesHeld(s)
    ensures CounterLaw(t)
  {
    hide Gather, BoxesHeld;
    MoveBoxes(s, i, p, t);
    MoveCounts(s, i, p);
  }

  lemma ReturnKeepsInv(s: State, i: nat)
    requires Inv(s) && i < |s.procs| && s.procs[i].Running? && s.waiting == []
    ensures Inv(ApplyRelease(s, Finish(i)))
  {
    hide Gather, ChannelsOnce, BoxesHeld, Upto;
    FinishKeepsRest(s, i, Returning(s.procs[i].box), ApplyRelease(s, Finish(i)));
    MoveNoChannels(s, i, Returning(s.procs[i].box), ApplyRelease(s, Finish(i)));
  }

  lemma DequeueKeepsChannels(s: State, i: nat)
    requires ChannelsOnce(s) && i < |s.procs| && s.procs[i].Running? && s.waiting != []
    ensures ChannelsOnce(ApplyRelease(s, Finish(i)))
  {
    hide Gather, ChannelFacts;
    var t := ApplyRelease(s, Finish(i));
    HeadTail(s.waiting);
    DequeueTakes(s.procs, i, HandingOff(s.procs[i].box, s.waiting[0]));
    assert OpenChans(t) == OpenChans(s) && Unsent(t) == Unsent(s);
    hide OpenChans, Unsent;
  }

  lemma DequeueTakes(ps: seq<Proc>, i: nat, p: Proc)
    requires i < |ps| && ps[i].Running? && p.HandingOff?
    ensures Gather(ps[i := p], ProcChans) == Gather(ps, ProcChans) + multiset{p.ch}
    ensures Gather(ps[i := p], UnsentChans) == Gather(ps, UnsentChans) + multiset{p.ch}
  {
    hide Gather;
    GatherUpdate(ps, i, p, ProcChans);
    GatherUpdate(ps, i, p, UnsentChans);
  }

  lemma DequeueKeepsInv(s: State, i: nat)
    requires Inv(s) && i < |s.procs| && s.procs[i].Running? && s.waiting != []
    ensures Inv(ApplyRelease(s, Finish(i)))
  {
    hide Gather, ChannelsOnce, BoxesHeld, Upto;
    DequeueKeepsChannels(s, i);
    FinishKeepsRest(s, i, HandingOff(s.procs[i].box, s.waiting[0]), ApplyRelease(s, Finish(i)));
  }

  lemma HandOffKeepsChannels(s: State, i: nat)
    requires ChannelsOnce(s) && i < |s.procs| && s.procs[i].HandingOff?
    ensures s.procs[i].ch < |s.chans| && s.chans[s.procs[i].ch] == Channel([], false)
    ensures ChannelsOnce(ApplyRelease(s, HandOff(i)))
  {
    UnsentAreOpen(s);
    hide Gather, ChannelFacts;
    var p, t := s.procs[i], ApplyRelease(s, HandOff(i));
    GatherUpdate(s.procs, i, Closing(p.ch), UnsentChans);
    GatherSame(s.procs, i, Closing(p.ch), ProcChans);
    FactsSend(s.chans, OpenChans(s), Unsent(s), Awaited(s), p.ch, p.box);
    assert OpenChans(t) == OpenChans(s) && Unsent(t) == Unsent(s) - multiset{p.ch};
  }

  lemma HandOffKeepsBoxes(s: State, i: nat)
    requires i < |s.procs| && s.procs[i].HandingOff? && s.procs[i].ch < |s.chans|
    requires s.chans[s.procs[i].ch] == Channel([], false)
    ensures BoxesHeld(ApplyRelease(s, HandOff(i))) == BoxesHeld(s)
  {
    hide Gather;
    var p, t := s.procs[i], ApplyRelease(s, HandOff(i));
    var b := multiset{p.box};
    GatherUpdate(s.procs, i, Closing(p.ch), ProcBoxes);
    GatherUpdate(s.chans, p.ch, Channel([p.box], false), Buffered);
    assert Gather(t.procs, ProcBoxes) == Gather(s.procs, ProcBoxes) - b;
    assert Gather(t.chans, Buffered) == Gather(s.chans, Buffered) + b;
  }

  /** A releaser that took a waiter's channel always finds it open and empty: it neither panics nor
      falls through to the select's default branch. */
  lemma HandOffKeepsInv(s: State, i: nat)
    requires Inv(s) && i < |s.procs| && s.procs[i].HandingOff?
    ensures Inv(ApplyRelease(s, HandOff(i)))
    ensures ApplyRelease(s, HandOff(i)).procs == s.procs[i := Closing(s.procs[i].ch)]
  {
    hide Gather, ChannelsOnce, BoxesHeld, Upto;
    HandOffKeepsChannels(s, i);
    MoveCounts(s, i, Closing(s.procs[i].ch));
    HandOffKeepsBoxes(s, i);
  }

  lemma CloseKeepsChannels(s: State, i: nat)
    requires ChannelsOnce(s) && i < |s.procs| && s.procs[i].Closing?
    ensures s.procs[i].ch < |s.chans| && !s.chans[s.procs[i].ch].closed
    ensures ChannelsOnce(ApplyRelease(s, CloseChan(i)))
  {
    hide Gather, ChannelFacts;
    var c, t := s.procs[i].ch, ApplyRelease(s, CloseChan(i));
    GatherUpdate(s.procs, i, Done, ProcChans);
    GatherSame(s.procs, i, Done, UnsentChans);
    FactsClose(s.chans, OpenChans(s), Unsent(s), Awaited(s), c);
    assert OpenChans(t) == OpenChans(s) - multiset{c} && Unsent(t) == Unsent(s);
  }

  lemma CloseKeepsBoxes(s: State, i: nat)
    requires i < |s.procs| && s.procs[i].Closing? && s.procs[i].ch < |s.chans|
    ensures BoxesHeld(ApplyRelease(s, CloseChan(i))) == BoxesHeld(s)
  {
    hide Gather;
    var c := s.procs[i].ch;
    GatherSame(s.procs, i, Done, ProcBoxes);
    GatherSame(s.chans, c, s.chans[c].(closed := true), Buffered);
  }

  lemma CloseKeepsInv(s: State, i: nat)
    requires Inv(s) && i < |s.procs| && s.procs[i].Closing?
    ensures Inv(ApplyRelease(s, CloseChan(i)))
  {
    hide Gather, ChannelsOnce, BoxesHeld, Upto;
    CloseKeepsChannels(s, i);
    MoveCounts(s, i, Done);
    CloseKeepsBoxes(s, i);
  }

  lemma CountUpKeepsInv(s: State, i: nat)
    requires Inv(s) && i < |s.procs| && s.procs[i].Returning?
    ensures Inv(ApplyRelease(s, CountUp(i)))
  {
    hide Gather, ChannelsOnce, BoxesHeld, Upto;
    var p, t := Enqueuing(s.procs[i].box), ApplyRelease(s, CountUp(i));
    MoveBoxes(s, i, p, t);
    MoveCounts(s, i, p);
    MoveNoChannels(s, i, p, t);
  }

  lemma PutBackKeepsBoxes(s: State, i: nat)
    requires i < |s.procs| && s.procs[i].Enqueuing?
    ensures BoxesHeld(ApplyRelease(s, PutBack(i))) == BoxesHeld(s)
  {
    hide Gather;
    var t, b := ApplyRelease(s, PutBack(i)), multiset{s.procs[i].box};
    GatherUpdate(s.procs, i, Done, ProcBoxes);
    assert multiset(t.free) == multiset(s.free) + b;
    assert Gather(t.procs, ProcBoxes) == Gather(s.procs, ProcBoxes) - b;
  }

  lemma PutBackKeepsInv(s: State, i: nat)
    requires Inv(s) && i < |s.procs| && s.procs[i].Enqueuing?
    ensures Inv(ApplyRelease(s, PutBack(i)))
  {
    hide Gather, ChannelsOnce, Upto, BoxesHeld;
    MoveCounts(s, i, Done);
    MoveNoChannels(s, i, Done, ApplyRelease(s, PutBack(i)));
    PutBackKeepsBoxes(s, i);
  }

  // ------------------------------------------------- every schedule

  lemma AddKeepsInv(s: State, a: Act)
    requires Inv(s)
    ensures Inv(ApplyAdd(s, a))
  {
    hide Inv;
    match a
    case StartAdd(job) => StartAddKeepsInv(s, job);
    case AddOk(i) => if i < |s.procs| && s.procs[i].Adding? { AddEndsKeepsInv(s, i, a); }
    case AddFail(i) => if i < |s.procs| && s.procs[i].Adding? { AddEndsKeepsInv(s, i, a); }
    case AddReturn(i) => if i < |s.procs| && s.procs[i].AddReturning? { AddReturnKeepsInv(s, i); }
    case _ =>
  }

  lemma WorkerKeepsInv(s: State, a: Act)
    requires Inv(s)
    ensures Inv(ApplyWorker(s, a))
  {
    hide Inv;
    match a
    case Check => CheckKeepsInv(s, a);
    case Take => CheckKeepsInv(s, a);
    case TryBox => if s.worker.HasJob? { TryBoxKeepsInv(s); }
    case MakeChan => if s.worker.NoBox? { MakeChanKeepsInv(s); }
    case Subtract => SubtractKeepsInv(s);
    case Receive => if s.worker.Waiting? { ReceiveKeepsInv(s); }
    case Timeout => if s.worker.Waiting? { TimeoutKeepsInv(s); }
    case GiveBack => CheckKeepsInv(s, a);
    case Launch => if s.worker.Reserved? { LaunchKeepsInv(s); }
    case _ =>
  }

  lemma ReleaseKeepsInv(s: State, a: Act)
    requires Inv(s)
    ensures Inv(ApplyRelease(s, a))
  {
    hide Inv;
    match a
    case Finish(i) =>
      if i < |s.procs| && s.procs[i].Running? {
        if s.waiting == [] { ReturnKeepsInv(s, i); } else { DequeueKeepsInv(s, i); }
      }
    case HandOff(i) => if i < |s.procs| && s.procs[i].HandingOff? { HandOffKeepsInv(s, i); }
    case CloseChan(i) => if i < |s.procs| && s.procs[i].Closing? { CloseKeepsInv(s, i); }
    case CountUp(i) => if i < |s.procs| && s.procs[i].Returning? { CountUpKeepsInv(s, i); }
    case PutBack(i) => if i < |s.procs| && s.procs[i].Enqueuing? { PutBackKeepsInv(s, i); }
    case _ =>
  }

  lemma StepKeepsInv(s: State, a: Act)
    requires Inv(s)
    ensures Inv(Apply(s, a)) && Apply(s, a).n == s.n
  {
    hide Inv;
    AddKeepsInv(s, a);
    WorkerKeepsInv(s, a);
    ReleaseKeepsInv(s, a);
  }

  lemma {:induction false} FreshBoxes(n: nat)
    ensures multiset(seq(n, i => i)) == Upto(n)
  {
    if n > 0 {
      FreshBoxes(n - 1);
      assert seq(n, i => i) == seq(n - 1, i => i) + [n - 1];
    }
  }

  lemma InitInv(n: nat)
    ensures Inv(Init(n))
  {
    FreshBoxes(n);
  }

  /** From any good state, every schedule stays good. */
  lemma {:induction false} ExecKeepsInv(s: State, acts: seq<Act>)
    requires Inv(s)
    ensures Inv(Exec(s, acts)) && Exec(s, acts).n == s.n
  {
    hide Inv;
    if acts != [] {
      ExecKeepsInv(s, acts[..|acts| - 1]);
      StepKeepsInv(Exec(s, acts[..|acts| - 1]), acts[|acts| - 1]);
    }
  }

  /** In every interleaving: no panic, every box in exactly one place, the exact counter law, and
      every hand-off channel filled at most once and closed at most once. */
  lemma EveryScheduleKeepsInv(n: nat, acts: seq<Act>)
    ensures Inv(Exec(Init(n), acts)) && Exec(Init(n), acts).n == n
  {
    InitInv(n);
    ExecKeepsInv(Init(n), acts);
  }
}
