/** The box allocator of one sandbox server: sandbox/sandbox.go with the worker of
    sandbox/runHandler.go and AddJob of cmd/sandbox-server/main.go.

    Every access to a shared queue, channel or counter is one action, and a schedule is any list
    of actions; an action that cannot run in the current state leaves it unchanged. Quantifying
    over schedules therefore covers every interleaving of the worker, of any number of AddJob
    calls and of any number of judging goroutines. */
module BoxAllocator {
  import opened Folds

  type Job = nat
  type Box = nat
  type ChanId = nat

  /** A goroutine other than the worker, by what it is about to do. */
  datatype Proc =
    | Adding(job: Job)                  // AddJob: has subtracted, is cloning
    | AddReturning                      // AddJob: deferred AddAvailableCount
    | Running(job: Job, box: Box)       // judging
    | HandingOff(box: Box, ch: ChanId)  // Release: has dequeued a waiter
    | Closing(ch: ChanId)               // Release: has sent the box, will close
    | Returning(box: Box)               // Release: AddAvailableCount comes next
    | Enqueuing(box: Box)               // Release: AvailableBoxIDs.Enqueue comes next
    | Done

  /** The single worker inside assignJob and Reserve, by what it is about to do. */
  datatype Worker =
    | Idle
    | Checked                           // saw AvailableCount() > 0
    | HasJob(job: Job)                  // ReleaseJob done, Reserve comes next
    | NoBox(job: Job)                   // the free queue was empty
    | GotBox(job: Job, box: Box)        // box dequeued, subtract comes next
    | Waiting(job: Job, ch: ChanId)
    | Received(job: Job, box: Box)      // box received, subtract comes next
    | Reserved(job: Job, box: Box)      // Reserve returned (box, true)
    | TimedOut(job: Job)                // Reserve returned (-1, false)

  /** A hand-off channel of capacity 1. */
  datatype Channel = Channel(buffer: seq<Box>, closed: bool)

  datatype State = State(
    n: nat, free: seq<Box>, waiting: seq<ChanId>, jobs: seq<Job>, count: int,
    chans: seq<Channel>, procs: seq<Proc>, worker: Worker,
    timedOut: set<ChanId>, handoffs: nat,
    finished: multiset<Job>, dropped: multiset<Job>, panicked: bool)
  {
    function AvailableCount(): int { if count > 0 then count else 0 }
    function ProcessingCount(): int { n - AvailableCount() }
    function WaitingCount(): nat { |jobs| }
  }

  function Init(n: nat): State {
    State(n, seq(n, i => i), [], [], n, [], [], Idle, {}, 0, multiset{}, multiset{}, false)
  }

  datatype Act =
    | StartAdd(job: Job) | AddOk(i: nat) | AddFail(i: nat) | AddReturn(i: nat)
    | Check | Take | TryBox | MakeChan | Subtract | Receive | Timeout | GiveBack | Launch
    | Finish(i: nat) | HandOff(i: nat) | CloseChan(i: nat) | CountUp(i: nat) | PutBack(i: nat)

  /** The goroutine an action belongs to: None for the worker. */
  function Actor(s: State, a: Act): Option<nat> {
    match a
    case StartAdd(_) => Some(|s.procs|)
    case AddOk(i) => Some(i)
    case AddFail(i) => Some(i)
    case AddReturn(i) => Some(i)
    case Finish(i) => Some(i)
    case HandOff(i) => Some(i)
    case CloseChan(i) => Some(i)
    case CountUp(i) => Some(i)
    case PutBack(i) => Some(i)
    case _ => None
  }

  function Apply(s: State, a: Act): State {
    if s.panicked then s else
    match a
    case StartAdd(_) => ApplyAdd(s, a)
    case AddOk(_) => ApplyAdd(s, a)
    case AddFail(_) => ApplyAdd(s, a)
    case AddReturn(_) => ApplyAdd(s, a)
    case Finish(_) => ApplyRelease(s, a)
    case HandOff(_) => ApplyRelease(s, a)
    case CloseChan(_) => ApplyRelease(s, a)
    case CountUp(_) => ApplyRelease(s, a)
    case PutBack(_) => ApplyRelease(s, a)
    case _ => ApplyWorker(s, a)
  }

  function SetProc(s: State, i: nat, p: Proc): State
    requires i < |s.procs|
  {
    s.(procs := s.procs[i := p])
  }

  function ApplyAdd(s: State, a: Act): State {
    match a
    case StartAdd(job) =>
      s.(count := s.count - 1, procs := s.procs + [Adding(job)])
    case AddOk(i) =>
      if i < |s.procs| && s.procs[i].Adding? then
        SetProc(s, i, AddReturning).(jobs := s.jobs + [s.procs[i].job])
      else s
    case AddFail(i) =>
      if i < |s.procs| && s.procs[i].Adding? then
        SetProc(s, i, AddReturning).(dropped := s.dropped + multiset{s.procs[i].job})
      else s
    case AddReturn(i) =>
      if i < |s.procs| && s.procs[i].AddReturning? then SetProc(s, i, Done).(count := s.count + 1) else s
    case _ => s
  }

  function ApplyWorker(s: State, a: Act): State {
    var w := s.worker;
    match a
    case Check =>
      if w.Idle? && s.AvailableCount() > 0 then s.(worker := Checked) else s
    case Take =>
      if !w.Checked? then s
      else if s.jobs == [] then s.(worker := Idle)
      else s.(worker := HasJob(s.jobs[0]), jobs := s.jobs[1..])
    case TryBox =>
      if !w.HasJob? then s
      else if s.free == [] then s.(worker := NoBox(w.job))
      else s.(worker := GotBox(w.job, s.free[0]), free := s.free[1..])
    case MakeChan =>
      if w.NoBox? then
        s.(worker := Waiting(w.job, |s.chans|), chans := s.chans + [Channel([], false)],
           waiting := s.waiting + [|s.chans|])
      else s
    case Subtract =>
      if w.GotBox? then s.(worker := Reserved(w.job, w.box), count := s.count - 1)
      else if w.Received? then
        s.(worker := Reserved(w.job, w.box), count := s.count - 1, handoffs := s.handoffs + 1)
      else s
    case Receive =>
      if !w.Waiting? || w.ch >= |s.chans| then s
      else if s.chans[w.ch].buffer != [] then
        s.(worker := Received(w.job, s.chans[w.ch].buffer[0]),
           chans := s.chans[w.ch := s.chans[w.ch].(buffer := s.chans[w.ch].buffer[1..])])
      else if s.chans[w.ch].closed then s.(worker := Received(w.job, 0))  // zero value of a closed channel
      else s
    case Timeout =>
      if w.Waiting? then s.(worker := TimedOut(w.job), timedOut := s.timedOut + {w.ch}) else s
    case GiveBack =>
      if w.TimedOut? then s.(worker := Idle, jobs := s.jobs + [w.job]) else s
    case Launch =>
      if w.Reserved? then s.(worker := Idle, procs := s.procs + [Running(w.job, w.box)]) else s
    case _ => s
  }

  function ApplyRelease(s: State, a: Act): State {
    match a
    case Finish(i) =>
      if i < |s.procs| && s.procs[i].Running? then
        var p := s.procs[i];
        var t := s.(finished := s.finished + multiset{p.job});
        if s.waiting == [] then SetProc(t, i, Returning(p.box))
        else SetProc(t, i, HandingOff(p.box, s.waiting[0])).(waiting := s.waiting[1..])
      else s
    case HandOff(i) =>
      if i < |s.procs| && s.procs[i].HandingOff? && s.procs[i].ch < |s.chans| then
        var p := s.procs[i];
        var c := s.chans[p.ch];
        if c.closed then s.(panicked := true)        // send on closed channel
        else if c.buffer == [] then
          SetProc(s, i, Closing(p.ch)).(chans := s.chans[p.ch := c.(buffer := [p.box])])
        else SetProc(s, i, Returning(p.box))         // the select's default branch
      else s
    case CloseChan(i) =>
      if i < |s.procs| && s.procs[i].Closing? && s.procs[i].ch < |s.chans| then
        var c := s.chans[s.procs[i].ch];
        if c.closed then s.(panicked := true)        // close of closed channel
        else SetProc(s, i, Done).(chans := s.chans[s.procs[i].ch := c.(closed := true)])
      else s
    case CountUp(i) =>
      if i < |s.procs| && s.procs[i].Returning? then
        SetProc(s, i, Enqueuing(s.procs[i].box)).(count := s.count + 1)
      else s
    case PutBack(i) =>
      if i < |s.procs| && s.procs[i].Enqueuing? then
        SetProc(s, i, Done).(free := s.free + [s.procs[i].box])
      else s
    case _ => s
  }

  function Exec(s: State, acts: seq<Act>): State {
    if acts == [] then s else Apply(Exec(s, acts[..|acts| - 1]), acts[|acts| - 1])
  }

  // ---------------------------------------------------------------- who holds what

  function ProcBoxes(p: Proc): multiset<nat> {
    match p
    case Running(_, b) => multiset{b}
    case HandingOff(b, _) => multiset{b}
    case Returning(b) => multiset{b}
    case Enqueuing(b) => multiset{b}
    case _ => multiset{}
  }

  /** Boxes counted as available before they are back in the queue. */
  function CountedBoxes(p: Proc): multiset<nat> {
    if p.Enqueuing? then multiset{p.box} else multiset{}
  }

  /** Channels this goroutine has taken off the waiting queue and not closed yet. */
  function ProcChans(p: Proc): multiset<nat> {
    if p.HandingOff? || p.Closing? then multiset{p.ch} else multiset{}
  }

  /** Channels this goroutine is about to send on. */
  function UnsentChans(p: Proc): multiset<nat> {
    if p.HandingOff? then multiset{p.ch} else multiset{}
  }

  /** One token for each AddJob call in flight. */
  function AddToken(p: Proc): multiset<nat> {
    if p.Adding? || p.AddReturning? then multiset{0} else multiset{}
  }

  function ProcJobs(p: Proc): multiset<nat> {
    if p.Adding? || p.Running? then multiset{p.job} else multiset{}
  }

  function Buffered(c: Channel): multiset<nat> { multiset(c.buffer) }

  function WorkerBoxes(w: Worker): multiset<nat> {
    if w.GotBox? || w.Received? || w.Reserved? then multiset{w.box} else multiset{}
  }

  function WorkerJobs(w: Worker): multiset<nat> {
    if w.Idle? || w.Checked? then multiset{} else multiset{w.job}
  }

  function BoxesHeld(s: State): multiset<nat> {
    multiset(s.free) + WorkerBoxes(s.worker) + Gather(s.procs, ProcBoxes) + Gather(s.chans, Buffered)
  }

  function AddsInFlight(s: State): nat { |Gather(s.procs, AddToken)| }

  /** Channels a releaser will still send on, in the queue or in hand. */
  function Unsent(s: State): multiset<nat> { multiset(s.waiting) + Gather(s.procs, UnsentChans) }

  /** Channels not closed yet, wherever they are referred to. */
  function OpenChans(s: State): multiset<nat> { multiset(s.waiting) + Gather(s.procs, ProcChans) }

  /** Every job given to this server, where it is now. */
  function JobsHeld(s: State): multiset<nat> {
    multiset(s.jobs) + WorkerJobs(s.worker) + Gather(s.procs, ProcJobs) + s.finished + s.dropped
  }

  /** Channels somebody waits on, or gave up waiting on. */
  function Awaited(s: State): set<ChanId> {
    s.timedOut + if s.worker.Waiting? then {s.worker.ch} else {}
  }

  // ---------------------------------------------------------------- the invariant

  /** Each box is in exactly one place. */
  ghost predicate BoxesOnce(s: State) { BoxesHeld(s) == Upto(s.n) }

  /** The counter, exactly. */
  ghost predicate CounterLaw(s: State) {
    s.count == |s.free| + |Gather(s.procs, CountedBoxes)| + (if s.worker.GotBox? then 1 else 0)
               - AddsInFlight(s) - s.handoffs
  }

  /** A channel is referred to once until it is closed and never after, is filled at most once, and
      holds a box exactly when it is awaited and the box was sent. */
  ghost predicate ChannelFacts(chans: seq<Channel>, open: multiset<nat>, unsent: multiset<nat>, awaited: set<ChanId>) {
    && (forall c: nat :: open[c] == if c < |chans| && !chans[c].closed then 1 else 0)
    && (forall c :: c in unsent ==> c < |chans| && chans[c].buffer == [])
    && (forall c :: 0 <= c < |chans| ==> |chans[c].buffer| <= 1)
    && (forall c :: 0 <= c < |chans| ==> (c in awaited <==> c in unsent || chans[c].buffer != []))
    && (forall c :: c in awaited ==> c < |chans|)
  }

  ghost predicate ChannelsOnce(s: State) {
    && ChannelFacts(s.chans, OpenChans(s), Unsent(s), Awaited(s))
    && (s.worker.Waiting? ==> s.worker.ch !in s.timedOut)
  }

  ghost predicate Inv(s: State) {
    !s.panicked && BoxesOnce(s) && CounterLaw(s) && ChannelsOnce(s)
  }
}
