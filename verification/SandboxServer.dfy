/** The Sandbox object with its methods as written, each shared access one atomic step and any
    steps of other goroutines in between. Every method is a run of the BoxAllocator machine. */
module SandboxServer {
  import opened Folds
  import opened BoxAllocator
  import opened BoxInvariant
  import opened BoxTheorems

  lemma ExecOne(s: State, xs: seq<Act>, a: Act)
    ensures Exec(s, xs + [a]) == Apply(Exec(s, xs), a)
  {
    assert (xs + [a])[..|xs|] == xs;
  }

  /** None of these actions belongs to `me`. */
  ghost predicate OnlyOthers(s: State, acts: seq<Act>, me: Option<nat>) {
    forall k :: 0 <= k < |acts| ==> Actor(Exec(s, acts[..k]), acts[k]) != me
  }

  lemma OnlyOthersFront(s: State, acts: seq<Act>, me: Option<nat>)
    requires OnlyOthers(s, acts, me) && acts != []
    ensures var rest := acts[..|acts| - 1]; OnlyOthers(s, rest, me) && Actor(Exec(s, rest), acts[|acts| - 1]) != me
  {
    hide Actor, Exec;
    var rest := acts[..|acts| - 1];
    forall k | 0 <= k < |rest| ensures Actor(Exec(s, rest[..k]), rest[k]) != me {
      assert rest[..k] == acts[..k];
    }
  }

  /** Other goroutines cannot move the worker, nor goroutine i. */
  lemma {:induction false} OthersKeep(s: State, acts: seq<Act>, me: Option<nat>)
    requires OnlyOthers(s, acts, me)
    ensures me.None? ==> Exec(s, acts).worker == s.worker
    ensures me.Some? && me.value < |s.procs| ==>
      me.value < |Exec(s, acts).procs| && Exec(s, acts).procs[me.value] == s.procs[me.value]
  {
    if acts != [] {
      var rest := acts[..|acts| - 1];
      OnlyOthersFront(s, acts, me);
      OthersKeep(s, rest, me);
      OtherKeeps(Exec(s, rest), acts[|acts| - 1], me);
    }
  }

  lemma OtherKeeps(s: State, a: Act, me: Option<nat>)
    requires Actor(s, a) != me
    ensures me.None? ==> Apply(s, a).worker == s.worker
    ensures me.Some? && me.value < |s.procs| ==>
      me.value < |Apply(s, a).procs| && Apply(s, a).procs[me.value] == s.procs[me.value]
  {
  }

  // ------------------------------------------------- one goroutine's own actions

  predicate IsWorkers(a: Act) {
    a.Check? || a.Take? || a.TryBox? || a.MakeChan? || a.Subtract? || a.Receive? || a.Timeout? || a.GiveBack?
    || a.Launch?
  }

  /** An action of the worker, or of goroutine i after its start. */
  predicate IsOf(a: Act, me: Option<nat>) {
    if me.None? then IsWorkers(a) else !IsWorkers(a) && !a.StartAdd? && a.i == me.value
  }

  /** The actions of one goroutine in a schedule. */
  function ActsOf(acts: seq<Act>, me: Option<nat>): seq<Act> {
    if acts == [] then [] else
    ActsOf(acts[..|acts| - 1], me) + if IsOf(acts[|acts| - 1], me) then [acts[|acts| - 1]] else []
  }

  lemma ActsOfOne(acts: seq<Act>, a: Act, me: Option<nat>)
    ensures ActsOf(acts + [a], me) == ActsOf(acts, me) + if IsOf(a, me) then [a] else []
  {
    assert (acts + [a])[..|acts|] == acts;
  }

  lemma {:induction false} ActsOfConcat(xs: seq<Act>, ys: seq<Act>, me: Option<nat>)
    ensures ActsOf(xs + ys, me) == ActsOf(xs, me) + ActsOf(ys, me)
  {
    hide IsOf;
    if ys == [] {
      assert xs + ys == xs;
    } else {
      ActsOfConcat(xs, ys[..|ys| - 1], me);
      assert (xs + ys)[..|xs + ys| - 1] == xs + ys[..|ys| - 1];
    }
  }

  lemma {:induction false} OthersAreNotMine(s: State, others: seq<Act>, me: Option<nat>)
    requires OnlyOthers(s, others, me)
    ensures ActsOf(others, me) == []
  {
    if others != [] {
      OnlyOthersFront(s, others, me);
      OthersAreNotMine(s, others[..|others| - 1], me);
      hide OnlyOthers, Exec;
    }
  }

  /** How a Reserve call ends. */
  datatype Outcome = FromQueue | HandedOver | GaveUp

  function ReserveActs(o: Outcome): seq<Act> {
    match o
    case FromQueue => [TryBox, Subtract]
    case HandedOver => [TryBox, MakeChan, Receive, Subtract]
    case GaveUp => [TryBox, MakeChan, Timeout]
  }

  /** One round of the worker's loop: a job is taken, and launched with a box or put back. */
  function RoundActs(o: Outcome): seq<Act> {
    [Check, Take] + ReserveActs(o) + [if o.GaveUp? then GiveBack else Launch]
  }

  function AllRounds(rounds: seq<Outcome>): seq<Act> {
    if rounds == [] then [] else AllRounds(rounds[..|rounds| - 1]) + RoundActs(rounds[|rounds| - 1])
  }

  lemma AllRoundsOne(rounds: seq<Outcome>, o: Outcome)
    ensures AllRounds(rounds + [o]) == AllRounds(rounds) + RoundActs(o)
  {
    assert (rounds + [o])[..|rounds|] == rounds;
  }

  /** Why the worker's loop is left, the last one when no more answers are given. */
  datatype Stop = ShutDown | NoneAvailable | Cancelled | NoJobs | Unanswered

  function StopActs(stop: Stop): seq<Act> {
    match stop
    case Cancelled => [Check]
    case NoJobs => [Check, Take]
    case _ => []
  }

  class Sandbox {
    const sandboxCount: nat
    var availableBoxIDs: seq<Box>
    var waitingQueue: seq<ChanId>
    var jobQueue: seq<Job>
    var availableCount: int
    var chans: seq<Channel>            // the channels made so far, in order of creation

    // where every goroutine is, and what has happened
    ghost var worker: Worker
    ghost var procs: seq<Proc>
    ghost var timedOut: set<ChanId>
    ghost var handoffs: nat
    ghost var finished: multiset<Job>
    ghost var dropped: multiset<Job>
    ghost var history: seq<Act>        // every action since NewSandbox

    ghost function View(): State
      reads this
    {
      State(sandboxCount, availableBoxIDs, waitingQueue, jobQueue, availableCount, chans, procs, worker,
            timedOut, handoffs, finished, dropped, false)
    }

    /** The object is where its history, run on the machine, leads. */
    ghost predicate Valid()
      reads this
    {
      View() == Exec(Init(sandboxCount), history)
    }

    /** What one goroutine has done; None is the worker. */
    ghost function Trace(me: Option<nat>): seq<Act>
      reads this`history
    {
      ActsOf(history, me)
    }

    constructor (count: nat)
      ensures Valid() && View() == Init(count) && history == []
    {
      sandboxCount := count;
      waitingQueue, jobQueue, availableCount, chans := [], [], count, [];
      worker, procs, timedOut, handoffs, finished, dropped := Idle, [], {}, 0, multiset{}, multiset{};
      availableBoxIDs, history := [], [];
      new;
      for i := 0 to count
        invariant View() == Init(count).(free := seq(i, k => k)) && history == []
      {
        availableBoxIDs := availableBoxIDs + [i];
      }
    }

    lemma Good()
      requires Valid()
      ensures Inv(View())
    {
      EveryScheduleKeepsInv(sandboxCount, history);
    }

    lemma WaiterReady()
      requires Valid() && worker.Waiting?
      ensures worker.ch < |chans| && (chans[worker.ch].closed ==> chans[worker.ch].buffer != [])
    {
      Good();
      WaiterIsServed(View());
    }

    lemma SenderReady(i: nat)
      requires Valid() && i < |procs| && procs[i].HandingOff?
      ensures procs[i].ch < |chans| && chans[procs[i].ch] == Channel([], false)
    {
      Good();
      HandOffKeepsChannels(View(), i);
    }

    lemma CloserReady(i: nat)
      requires Valid() && i < |procs| && procs[i].Closing?
      ensures procs[i].ch < |chans| && !chans[procs[i].ch].closed
    {
      Good();
      CloseKeepsChannels(View(), i);
    }

    /** The step just taken is machine action `a`. */
    ghost method Record(before: State, a: Act)
      requires before == Exec(Init(sandboxCount), history) && View() == Apply(before, a)
      modifies this`history
      ensures Valid() && history == old(history) + [a]
      ensures forall me: Option<nat> :: ActsOf(history, me) == ActsOf(old(history), me) + if IsOf(a, me)
        then [a] else []
    {
      ExecOne(Init(sandboxCount), history, a);
      forall me ensures ActsOf(history + [a], me) == ActsOf(history, me) + if IsOf(a, me) then [a] else [] {
        ActsOfOne(history, a, me);
      }
      history := history + [a];
    }

    /** Any number of steps of goroutines other than `me`: a caller knows no more than the contract, so whatever
        they do in between is covered. */
    method Interference(ghost me: Option<nat>)
      requires Valid()
      modifies this
      ensures Valid() && old(history) <= history
      ensures OnlyOthers(old(View()), history[|old(history)|..], me)
    {
    }

    /** What a goroutine in the middle of a method can rely on after interference. */
    method Yield(ghost me: Option<nat>)
      requires Valid()
      modifies this
      ensures Valid() && old(history) <= history
      ensures Trace(me) == old(Trace(me))
      ensures me.None? ==> worker == old(worker)
      ensures me.Some? && me.value < |old(procs)| ==> me.value < |procs| && procs[me.value] == old(procs[me.value])
    {
      Interference(me);
      ghost var others := history[|old(history)|..];
      OthersKeep(old(View()), others, me);
      ExecConcat(Init(sandboxCount), old(history), others);
      assert old(history) + others == history;
      ActsOfConcat(old(history), others, me);
      OthersAreNotMine(old(View()), others, me);
    }

    // ------------------------------------------------- atomic steps of the worker

    method DequeueBox() returns (item: Option<Box>)
      requires Valid() && worker.HasJob?
      modifies this
      ensures Valid() && history == old(history) + [TryBox]
      ensures Trace(None) == old(Trace(None)) + [TryBox]
      ensures item == if old(availableBoxIDs) != [] then Some(old(availableBoxIDs)[0]) else None
      ensures worker == if item.Some? then GotBox(old(worker.job), item.value) else NoBox(old(worker.job))
      ensures availableBoxIDs == if item.Some? then old(availableBoxIDs)[1..] else []
      ensures unchanged(`waitingQueue, `jobQueue, `availableCount, `chans)
    {
      hide ApplyAdd, ApplyRelease, Exec;
      ghost var before := View();
      if availableBoxIDs == [] {
        item := None;
        worker := NoBox(worker.job);
      } else {
        item := Some(availableBoxIDs[0]);
        availableBoxIDs := availableBoxIDs[1..];
        worker := GotBox(worker.job, item.value);
      }
      Record(before, TryBox);
    }

    method EnqueueWaiter() returns (waitChan: ChanId)
      requires Valid() && worker.NoBox?
      modifies this
      ensures Valid() && history == old(history) + [MakeChan]
      ensures Trace(None) == old(Trace(None)) + [MakeChan]
      ensures worker == Waiting(old(worker.job), waitChan)
      ensures waitChan == |old(chans)| && chans == old(chans) + [Channel([], false)]
      ensures waitingQueue == old(waitingQueue) + [waitChan]
      ensures unchanged(`availableBoxIDs, `jobQueue, `availableCount)
    {
      hide ApplyAdd, ApplyRelease, Exec;
      ghost var before := View();
      waitChan := |chans|;
      chans := chans + [Channel([], false)];
      waitingQueue := waitingQueue + [waitChan];
      worker := Waiting(worker.job, waitChan);
      Record(before, MakeChan);
    }

    /** The select between the channel and the timer; the timer always fires in the end. */
    method AwaitBox(waitChan: ChanId, timerFires: bool) returns (item: Option<Box>)
      requires Valid() && worker.Waiting? && worker.ch == waitChan < |chans|
      modifies this
      ensures Valid() && old(history) <= history
      ensures Trace(None) == old(Trace(None)) + [if item.Some? then Receive else Timeout]
      ensures item == if !timerFires && old(chans)[waitChan].buffer != []
        then Some(old(chans)[waitChan].buffer[0]) else None
      ensures worker == if item.Some? then Received(old(worker.job), item.value) else TimedOut(old(worker.job))
    {
      if !timerFires && chans[waitChan].buffer != [] {
        item := Some(chans[waitChan].buffer[0]);
        ReadBox(waitChan);
      } else {
        item := None;
        FireTimer(waitChan);
      }
    }

    method ReadBox(waitChan: ChanId)
      requires Valid() && worker.Waiting? && worker.ch == waitChan < |chans| && chans[waitChan].buffer != []
      modifies this
      ensures Valid() && history == old(history) + [Receive]
      ensures Trace(None) == old(Trace(None)) + [Receive]
      ensures worker == Received(old(worker.job), old(chans)[waitChan].buffer[0])
    {
      hide ApplyAdd, ApplyRelease, Exec;
      ghost var before := View();
      worker := Received(worker.job, chans[waitChan].buffer[0]);
      chans := chans[waitChan := chans[waitChan].(buffer := chans[waitChan].buffer[1..])];
      Record(before, Receive);
    }

    method FireTimer(waitChan: ChanId)
      requires Valid() && worker.Waiting? && worker.ch == waitChan
      modifies this
      ensures Valid() && history == old(history) + [Timeout]
      ensures Trace(None) == old(Trace(None)) + [Timeout]
      ensures worker == TimedOut(old(worker.job))
    {
      hide ApplyAdd, ApplyRelease, Exec;
      ghost var before := View();
      worker, timedOut := TimedOut(worker.job), timedOut + {waitChan};
      Record(before, Timeout);
    }

    method SubtractForReserve()
      requires Valid() && (worker.GotBox? || worker.Received?)
      modifies this
      ensures Valid() && history == old(history) + [Subtract]
      ensures Trace(None) == old(Trace(None)) + [Subtract]
      ensures worker == Reserved(old(worker.job), old(worker.box))
      ensures availableCount == old(availableCount) - 1
      ensures unchanged(`availableBoxIDs, `waitingQueue, `jobQueue, `chans)
    {
      hide ApplyAdd, ApplyRelease, Exec;
      ghost var before := View();
      availableCount := availableCount - 1;
      handoffs := handoffs + if worker.Received? then 1 else 0;
      worker := Reserved(worker.job, worker.box);
      Record(before, Subtract);
    }

    /** A box from the free queue if there is one, otherwise a box handed over, or nothing after the time limit. */
    method Reserve(timerFires: bool) returns (boxID: int, ok: bool, ghost how: Outcome)
      requires Valid() && worker.HasJob?
      modifies this
      ensures Valid() && old(history) <= history
      ensures Trace(None) == old(Trace(None)) + ReserveActs(how)
      ensures how.FromQueue? <==> old(availableBoxIDs) != []
      ensures how.FromQueue? ==> boxID == old(availableBoxIDs)[0]
      ensures timerFires ==> !how.HandedOver?
      ensures !how.GaveUp? ==> ok && boxID >= 0 && worker == Reserved(old(worker.job), boxID)
      ensures how.GaveUp? ==> !ok && boxID == -1 && worker == TimedOut(old(worker.job))
    {
      hide Valid, View, Trace;
      var item := DequeueBox();
      Yield(None);
      if item.Some? {
        SubtractForReserve();
        return item.value, true, FromQueue;
      }
      var waitChan := EnqueueWaiter();
      Yield(None);
      WaiterKnown();
      item := AwaitBox(waitChan, timerFires);
      Yield(None);
      if item.Some? {
        SubtractForReserve();
        return item.value, true, HandedOver;
      }
      return -1, false, GaveUp;
    }

    lemma WaiterKnown()
      requires Valid() && worker.Waiting?
      ensures worker.ch < |chans|
    {
      WaiterReady();
    }

    // ------------------------------------------------- Release

    ghost predicate At(i: nat, p: Proc)
      reads this
    {
      i < |procs| && procs[i] == p
    }

    method DequeueWaiter(ghost i: nat, ghost job: Job, boxID: Box) returns (item: Option<ChanId>)
      requires Valid() && At(i, Running(job, boxID))
      modifies this
      ensures Valid() && history == old(history) + [Finish(i)]
      ensures Trace(Some(i)) == old(Trace(Some(i))) + [Finish(i)]
      ensures item == if old(waitingQueue) != [] then Some(old(waitingQueue)[0]) else None
      ensures At(i, if item.Some? then HandingOff(boxID, item.value) else Returning(boxID))
      ensures waitingQueue == if item.Some? then old(waitingQueue)[1..] else []
      ensures unchanged(`availableBoxIDs, `jobQueue, `availableCount, `chans)
    {
      hide ApplyAdd, ApplyWorker, Exec;
      ghost var before := View();
      finished := finished + multiset{job};
      if waitingQueue == [] {
        item := None;
        procs := procs[i := Returning(boxID)];
      } else {
        item := Some(waitingQueue[0]);
        waitingQueue := waitingQueue[1..];
        procs := procs[i := HandingOff(boxID, item.value)];
      }
      Record(before, Finish(i));
    }

    /** The select's send case: the channel is open and empty, so neither a panic nor the default
        branch is possible. */
    method SendBox(ghost i: nat, boxID: Box, waitChan: ChanId)
      requires Valid() && At(i, HandingOff(boxID, waitChan))
      modifies this
      ensures Valid() && history == old(history) + [HandOff(i)]
      ensures Trace(Some(i)) == old(Trace(Some(i))) + [HandOff(i)]
      ensures At(i, Closing(waitChan)) && BoxInChannel(history, waitChan, boxID)
      ensures waitChan < |old(chans)| && chans == old(chans)[waitChan := Channel([boxID], false)]
      ensures unchanged(`availableBoxIDs, `waitingQueue, `jobQueue, `availableCount)
    {
      hide ApplyAdd, ApplyWorker, Exec;
      SenderReady(i);
      ghost var before := View();
      chans := chans[waitChan := chans[waitChan].(buffer := [boxID])];
      procs := procs[i := Closing(waitChan)];
      Record(before, HandOff(i));
    }

    method CloseWaiter(ghost i: nat, waitChan: ChanId)
      requires Valid() && At(i, Closing(waitChan))
      modifies this
      ensures Valid() && history == old(history) + [CloseChan(i)]
      ensures Trace(Some(i)) == old(Trace(Some(i))) + [CloseChan(i)]
      ensures At(i, Done)
      ensures waitChan < |old(chans)| && chans == old(chans)[waitChan := old(chans)[waitChan].(closed := true)]
      ensures unchanged(`availableBoxIDs, `waitingQueue, `jobQueue, `availableCount)
    {
      hide ApplyAdd, ApplyWorker, Exec;
      CloserReady(i);
      ghost var before := View();
      chans := chans[waitChan := chans[waitChan].(closed := true)];
      procs := procs[i := Done];
      Record(before, CloseChan(i));
    }

    method AddForRelease(ghost i: nat, boxID: Box)
      requires Valid() && At(i, Returning(boxID))
      modifies this
      ensures Valid() && history == old(history) + [CountUp(i)]
      ensures Trace(Some(i)) == old(Trace(Some(i))) + [CountUp(i)]
      ensures At(i, Enqueuing(boxID))
      ensures availableCount == old(availableCount) + 1
      ensures unchanged(`availableBoxIDs, `waitingQueue, `jobQueue, `chans)
    {
      hide ApplyAdd, ApplyWorker, Exec;
      ghost var before := View();
      availableCount := availableCount + 1;
      procs := procs[i := Enqueuing(boxID)];
      Record(before, CountUp(i));
    }

    method EnqueueBox(ghost i: nat, boxID: Box)
      requires Valid() && At(i, Enqueuing(boxID))
      modifies this
      ensures Valid() && history == old(history) + [PutBack(i)]
      ensures Trace(Some(i)) == old(Trace(Some(i))) + [PutBack(i)]
      ensures At(i, Done) && BoxAtEnd(history, boxID)
      ensures availableBoxIDs == old(availableBoxIDs) + [boxID]
      ensures unchanged(`waitingQueue, `jobQueue, `availableCount, `chans)
    {
      hide ApplyAdd, ApplyWorker, Exec;
      ghost var before := View();
      availableBoxIDs := availableBoxIDs + [boxID];
      procs := procs[i := Done];
      Record(before, PutBack(i));
    }

    /** The goroutine's box goes into the channel of the longest waiting Reserve, which is then closed, or without
        one is counted and then put at the end of the free queue; these are all its steps. */
    method Release(ghost i: nat, ghost job: Job, boxID: Box) returns (ghost item: Option<ChanId>)
      requires Valid() && At(i, Running(job, boxID))
      modifies this
      ensures Valid() && old(history) <= history && At(i, Done)
      ensures item == if old(waitingQueue) != [] then Some(old(waitingQueue)[0]) else None
      ensures Trace(Some(i)) == old(Trace(Some(i))) + [Finish(i)] +
                if item.Some? then [HandOff(i), CloseChan(i)] else [CountUp(i), PutBack(i)]
      ensures item.Some? ==> exists h :: old(history) <= h <= history && BoxInChannel(h, item.value, boxID)
      ensures item.None? ==> exists h :: old(history) <= h <= history && BoxAtEnd(h, boxID)
    {
      hide Valid, View, Trace, Exec;
      var found := DequeueWaiter(i, job, boxID);
      item := found;
      Yield(Some(i));
      if found.Some? {
        SendBox(i, boxID, found.value);
        ghost var h := history;
        Yield(Some(i));
        CloseWaiter(i, found.value);
        assert BoxInChannel(h, found.value, boxID);
        return;
      }
      AddForRelease(i, boxID);
      Yield(Some(i));
      EnqueueBox(i, boxID);
      assert BoxAtEnd(history, boxID);
    }

    /** At that moment the box is what the channel holds. */
    ghost predicate BoxInChannel(h: seq<Act>, c: ChanId, boxID: Box) {
      var s := Exec(Init(sandboxCount), h);
      c < |s.chans| && s.chans[c].buffer == [boxID]
    }

    /** At that moment the box is last in the free queue. */
    ghost predicate BoxAtEnd(h: seq<Act>, boxID: Box) {
      var s := Exec(Init(sandboxCount), h);
      s.free != [] && s.free[|s.free| - 1] == boxID
    }

    // ------------------------------------------------- AddJob

    method SubtractForAdd(ghost job: Job) returns (ghost i: nat)
      requires Valid()
      modifies this
      ensures Valid() && history == old(history) + [StartAdd(job)]
      ensures At(i, Adding(job)) && i == |old(procs)| && Trace(Some(i)) == old(Trace(Some(i)))
      ensures availableCount == old(availableCount) - 1
      ensures unchanged(`availableBoxIDs, `waitingQueue, `jobQueue, `chans)
    {
      hide ApplyWorker, ApplyRelease, Exec;
      ghost var before := View();
      i := |procs|;
      availableCount := availableCount - 1;
      procs := procs + [Adding(job)];
      Record(before, StartAdd(job));
    }

    method ReserveJob(ghost i: nat, job: Job)
      requires Valid() && At(i, Adding(job))
      modifies this
      ensures Valid() && history == old(history) + [AddOk(i)]
      ensures Trace(Some(i)) == old(Trace(Some(i))) + [AddOk(i)]
      ensures At(i, AddReturning)
      ensures jobQueue == old(jobQueue) + [job]
      ensures unchanged(`availableBoxIDs, `waitingQueue, `availableCount, `chans)
    {
      hide ApplyWorker, ApplyRelease, Exec;
      ghost var before := View();
      jobQueue := jobQueue + [job];
      procs := procs[i := AddReturning];
      Record(before, AddOk(i));
    }

    ghost method Drop(i: nat, job: Job)
      requires Valid() && At(i, Adding(job))
      modifies this
      ensures Valid() && history == old(history) + [AddFail(i)]
      ensures Trace(Some(i)) == old(Trace(Some(i))) + [AddFail(i)]
      ensures At(i, AddReturning)
    {
      hide ApplyWorker, ApplyRelease, Exec;
      var before := View();
      dropped := dropped + multiset{job};
      procs := procs[i := AddReturning];
      Record(before, AddFail(i));
    }

    method AddForAdd(ghost i: nat)
      requires Valid() && At(i, AddReturning)
      modifies this
      ensures Valid() && history == old(history) + [AddReturn(i)]
      ensures Trace(Some(i)) == old(Trace(Some(i))) + [AddReturn(i)]
      ensures At(i, Done)
      ensures availableCount == old(availableCount) + 1
      ensures unchanged(`availableBoxIDs, `waitingQueue, `jobQueue, `chans)
    {
      hide ApplyWorker, ApplyRelease, Exec;
      ghost var before := View();
      availableCount := availableCount + 1;
      procs := procs[i := Done];
      Record(before, AddReturn(i));
    }

    /** The job is queued once when both lookups succeed and dropped otherwise; the counter is put
        back either way. */
    method AddJob(job: Job, rowFound: bool, cloned: bool) returns (ok: bool, ghost i: nat)
      requires Valid()
      modifies this
      ensures Valid() && old(history) <= history
      ensures ok == (rowFound && cloned)
      ensures |history| > |old(history)| && history[|old(history)|] == StartAdd(job) && i == |old(procs)|
      ensures At(i, Done) && (if ok then AddOk(i) else AddFail(i)) in history[|old(history)|..]
      ensures Trace(Some(i)) == old(Trace(Some(i))) + [if ok then AddOk(i) else AddFail(i), AddReturn(i)]
    {
      hide Valid, View, Exec, Trace;
      i := SubtractForAdd(job);
      Yield(Some(i));
      if rowFound && cloned {
        ReserveJob(i, job);
      } else {
        Drop(i, job);
      }
      ghost var h := history;
      Yield(Some(i));
      AddForAdd(i);
      assert history[|old(history)|..][|h| - 1 - |old(history)|] == h[|h| - 1];
      ok := rowFound && cloned;
    }

    // ------------------------------------------------- assignJob

    method CheckAvailable() returns (available: bool)
      requires Valid() && worker.Idle?
      modifies this
      ensures Valid() && old(history) <= history
      ensures Trace(None) == old(Trace(None)) + if available then [Check] else []
      ensures available == (availableCount > 0) && worker == if available then Checked else Idle
    {
      hide ApplyAdd, ApplyRelease, Exec;
      ghost var before := View();
      available := availableCount > 0;
      if available {
        worker := Checked;
        Record(before, Check);
      }
    }

    /** IsJobEmpty and ReleaseJob: only the worker dequeues, so the queue cannot shrink in between. */
    method ReleaseJob() returns (job: Option<Job>)
      requires Valid() && worker.Checked?
      modifies this
      ensures Valid() && history == old(history) + [Take]
      ensures Trace(None) == old(Trace(None)) + [Take]
      ensures job == if old(jobQueue) != [] then Some(old(jobQueue)[0]) else None
      ensures jobQueue == if old(jobQueue) != [] then old(jobQueue)[1..] else []
      ensures worker == if job.Some? then HasJob(job.value) else Idle
      ensures unchanged(`availableBoxIDs, `waitingQueue, `availableCount, `chans)
    {
      hide ApplyAdd, ApplyRelease, Exec;
      ghost var before := View();
      if jobQueue == [] {
        job := None;
        worker := Idle;
      } else {
        job := Some(jobQueue[0]);
        jobQueue := jobQueue[1..];
        worker := HasJob(job.value);
      }
      Record(before, Take);
    }

    method GiveJobBack(job: Job)
      requires Valid() && worker == TimedOut(job)
      modifies this
      ensures Valid() && history == old(history) + [GiveBack] && worker == Idle
      ensures Trace(None) == old(Trace(None)) + [GiveBack]
      ensures jobQueue == old(jobQueue) + [job]
      ensures unchanged(`availableBoxIDs, `waitingQueue, `availableCount, `chans)
    {
      hide ApplyAdd, ApplyRelease, Exec;
      ghost var before := View();
      jobQueue := jobQueue + [job];
      worker := Idle;
      Record(before, GiveBack);
    }

    method Run(job: Job, boxID: Box)
      requires Valid() && worker == Reserved(job, boxID)
      modifies this
      ensures Valid() && history == old(history) + [Launch] && worker == Idle
      ensures Trace(None) == old(Trace(None)) + [Launch]
    {
      hide ApplyAdd, ApplyRelease, Exec;
      ghost var before := View();
      procs := procs + [Running(job, boxID)];
      worker := Idle;
      Record(before, Launch);
    }

    /** One round of the loop, unless it ends before a job is taken. */
    method Round(cancelled: bool, timerFires: bool) returns (going: bool, ghost how: Outcome, ghost stop: Stop)
      requires Valid() && worker.Idle?
      modifies this
      ensures Valid() && old(history) <= history
      ensures Trace(None) == old(Trace(None)) + if going then RoundActs(how) else StopActs(stop)
      ensures going ==> !cancelled && worker.Idle? && (timerFires ==> !how.HandedOver?)
      ensures !going ==> !stop.Unanswered? && !stop.ShutDown? && worker == if stop.Cancelled? then Checked else Idle
      ensures !going && stop.NoneAvailable? ==> availableCount <= 0
      ensures !going && stop.NoJobs? ==> jobQueue == []
      ensures !going && stop.Cancelled? ==> cancelled && jobQueue != []
    {
      hide Valid, View, Trace;
      how, stop := GaveUp, NoneAvailable;
      var available := CheckAvailable();
      if !available {
        return false, how, NoneAvailable;
      }
      Yield(None);
      if jobQueue != [] && cancelled {
        return false, how, Cancelled;
      }
      var job := ReleaseJob();
      if job.None? {
        return false, how, NoJobs;
      }
      Yield(None);
      var boxID, ok;
      boxID, ok, how := Reserve(timerFires);
      Yield(None);
      if !ok {
        GiveJobBack(job.value);
      } else {
        Run(job.value, boxID);
      }
      return true, how, stop;
    }

    /** `shuttingDown` answers the look at ctx.Done() before the loop and `cancelled` each one inside; `timers` says
        which Reserve calls time out; the loop is followed for as long as answers are given. The worker does whole
        rounds and never leaves the loop with a job in its hand. */
    method AssignJob(shuttingDown: bool, cancelled: seq<bool>, timers: seq<bool>)
      returns (ghost rounds: seq<Outcome>, ghost stop: Stop)
      requires Valid() && worker.Idle? && |timers| == |cancelled|
      modifies this
      ensures Valid() && old(history) <= history
      ensures Trace(None) == old(Trace(None)) + AllRounds(rounds) + StopActs(stop)
      ensures |rounds| <= |cancelled|
      ensures forall k :: 0 <= k < |rounds| ==> !cancelled[k] && (timers[k] ==> !rounds[k].HandedOver?)
      ensures stop.ShutDown? <==> shuttingDown
      ensures shuttingDown ==> rounds == [] && history == old(history)
      ensures !shuttingDown ==> (stop.Unanswered? <==> |rounds| == |cancelled|)
      ensures stop.NoneAvailable? ==> availableCount <= 0
      ensures stop.NoJobs? ==> jobQueue == []
      ensures stop.Cancelled? ==> cancelled[|rounds|] && jobQueue != []
      ensures worker == if stop.Cancelled? then Checked else Idle
    {
      hide Valid, View, Trace, RoundActs;
      rounds := [];
      if shuttingDown {
        stop := ShutDown;
        return;
      }
      for k := 0 to |cancelled|
        invariant Valid() && old(history) <= history && worker.Idle? && |rounds| == k
        invariant forall j :: 0 <= j < k ==> !cancelled[j] && (timers[j] ==> !rounds[j].HandedOver?)
        invariant Trace(None) == old(Trace(None)) + AllRounds(rounds)
      {
        var going;
        ghost var how;
        going, how, stop := Round(cancelled[k], timers[k]);
        if !going { return; }
        AllRoundsOne(rounds, how);
        rounds := rounds + [how];
        Yield(None);
      }
      stop := Unanswered;
    }

    // ------------------------------------------------- shutdown

    /** Any steps of any goroutines, again known by the contract alone. */
    method Elsewhere()
      requires Valid()
      modifies this
      ensures Valid() && old(history) <= history
    {
    }

    lemma NothingProcessing()
      requires Valid() && sandboxCount > 0 && View().ProcessingCount() == 0
      ensures forall i :: 0 <= i < |procs| ==> !procs[i].Adding? && !procs[i].AddReturning? && !procs[i].Running?
      ensures JobsHeld(View()) == finished + dropped <==> jobQueue == [] && (worker.Idle? || worker.Checked?)
    {
      hide Inv, JobsHeld;
      Good();
      ShutdownExactly(View());
    }

    /** The wait at shutdown, `timedOut` telling at which look the time limit has passed. The counts are read one
        after the other: when the loop ends because both were 0, no AddJob is in flight and nothing is being judged,
        and no job was queued when the first was read, which may be earlier; then all jobs are over exactly when
        none is queued now and the worker holds none. */
    method AwaitCompletion(timedOut: seq<bool>) returns (done: bool, ghost seen: nat)
      requires Valid()
      modifies this
      ensures Valid() && old(history) <= history
      ensures done ==> |old(history)| <= seen <= |history| && Exec(Init(sandboxCount), history[..seen]).jobs == []
      ensures done && seen == |history| ==> jobQueue == []
      ensures done && sandboxCount > 0 ==>
        forall i :: 0 <= i < |procs| ==> !procs[i].Adding? && !procs[i].AddReturning? && !procs[i].Running?
      ensures done && sandboxCount > 0 ==>
        (JobsHeld(View()) == finished + dropped <==> jobQueue == [] && (worker.Idle? || worker.Checked?))
    {
      hide Exec;
      seen := |history|;
      for k := 0 to |timedOut|
        invariant Valid() && old(history) <= history
      {
        var waitingCount := |jobQueue|;
        seen := |history|;
        ghost var first := history;
        assert first[..seen] == first;
        Elsewhere();
        assert history[..seen] == first;
        var processingCount := sandboxCount - if availableCount > 0 then availableCount else 0;
        if waitingCount == 0 && processingCount == 0 {
          if sandboxCount > 0 { NothingProcessing(); }
          assert seen == |history| ==> history == first;
          return true, seen;
        }
        if timedOut[k] {
          return false, seen;
        }
        Elsewhere();
      }
      return false, seen;
    }
  }
}
