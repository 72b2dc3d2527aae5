/** What happens to a sandbox server's jobs, action by action. */
module BoxJobs {
  import opened Folds
  import opened BoxAllocator

  lemma AddOkKeepsJobs(s: State, i: nat)
    requires i < |s.procs| && s.procs[i].Adding?
    ensures JobsHeld(ApplyAdd(s, AddOk(i))) == JobsHeld(s)
  {
    hide Gather;
    var x, g := multiset{s.procs[i].job}, Gather(s.procs, ProcJobs);
    GatherUpdate(s.procs, i, AddReturning, ProcJobs);
    assert Gather(s.procs[i := AddReturning], ProcJobs) == g - x;
    assert multiset(s.jobs + [s.procs[i].job]) == multiset(s.jobs) + x;
    assert multiset(s.jobs) + x + WorkerJobs(s.worker) + (g - x) == multiset(s.jobs) + WorkerJobs(s.worker) + g;
  }

  lemma AddFailKeepsJobs(s: State, i: nat)
    requires i < |s.procs| && s.procs[i].Adding?
    ensures JobsHeld(ApplyAdd(s, AddFail(i))) == JobsHeld(s)
  {
    hide Gather;
    var x, g := multiset{s.procs[i].job}, Gather(s.procs, ProcJobs);
    GatherUpdate(s.procs, i, AddReturning, ProcJobs);
    assert Gather(s.procs[i := AddReturning], ProcJobs) == g - x;
    Shift(multiset(s.jobs) + WorkerJobs(s.worker), g, s.finished, s.dropped, x);
  }

  lemma FinishKeepsJobs(s: State, i: nat)
    requires i < |s.procs| && s.procs[i].Running?
    ensures JobsHeld(ApplyRelease(s, Finish(i))) == JobsHeld(s)
  {
    hide Gather;
    var x, g, t := multiset{s.procs[i].job}, Gather(s.procs, ProcJobs), ApplyRelease(s, Finish(i));
    GatherUpdate(s.procs, i, t.procs[i], ProcJobs);
    assert t.procs == s.procs[i := t.procs[i]];
    assert Gather(t.procs, ProcJobs) == g - x;
    Shift(multiset(s.jobs) + WorkerJobs(s.worker), g, s.finished, s.dropped, x);
  }

  lemma LaunchKeepsJobs(s: State)
    requires s.worker.Reserved?
    ensures JobsHeld(ApplyWorker(s, Launch)) == JobsHeld(s)
  {
    hide Gather;
    var x, g, t := multiset{s.worker.job}, Gather(s.procs, ProcJobs), ApplyWorker(s, Launch);
    GatherAppend(s.procs, Running(s.worker.job, s.worker.box), ProcJobs);
    assert Gather(t.procs, ProcJobs) == g + x && WorkerJobs(t.worker) == multiset{} && WorkerJobs(s.worker) == x;
    hide ApplyWorker, WorkerJobs, ProcJobs;
    Inside(multiset(s.jobs), g, s.finished, s.dropped, x);
  }

  lemma QueueKeepsJobs(s: State, a: Act)
    requires a == Take || a == GiveBack
    ensures JobsHeld(ApplyWorker(s, a)) == JobsHeld(s)
  {
    hide JobsHeld;
    var t := ApplyWorker(s, a);
    if a == Take && s.jobs != [] { HeadTail(s.jobs); }
    assert multiset(t.jobs) + WorkerJobs(t.worker) == multiset(s.jobs) + WorkerJobs(s.worker);
    FrontKeepsJobs(s, t);
  }

  lemma FrontKeepsJobs(s: State, t: State)
    requires multiset(t.jobs) + WorkerJobs(t.worker) == multiset(s.jobs) + WorkerJobs(s.worker)
    requires t.procs == s.procs && t.finished == s.finished && t.dropped == s.dropped
    ensures JobsHeld(t) == JobsHeld(s)
  {
    hide Gather, WorkerJobs, ProcJobs;
  }

  lemma QuietWorker(s: State, a: Act)
    requires a != Launch && a != Take && a != GiveBack
    ensures var t := ApplyWorker(s, a);
      t.jobs == s.jobs && WorkerJobs(t.worker) == WorkerJobs(s.worker) && t.procs == s.procs
      && t.finished == s.finished && t.dropped == s.dropped
  {
    var t := ApplyWorker(s, a);
    assert t.worker == s.worker || (s.worker.Idle? && t.worker.Checked?) ||
           (!s.worker.Idle? && !s.worker.Checked? && !t.worker.Idle? && !t.worker.Checked? &&
             t.worker.job == s.worker.job);
    hide ApplyWorker;
  }

  lemma WorkerKeepsJobs(s: State, a: Act)
    ensures JobsHeld(ApplyWorker(s, a)) == JobsHeld(s)
  {
    if a == Launch {
      if s.worker.Reserved? { LaunchKeepsJobs(s); }
    } else if a == Take || a == GiveBack {
      QueueKeepsJobs(s, a);
    } else {
      QuietWorker(s, a);
      hide Gather, ApplyWorker;
    }
  }

  /** One goroutine moves on without a job before or after, or none does. */
  lemma OthersKeepJobs(s: State, t: State, i: nat)
    requires t.procs == s.procs ||
      (i < |s.procs| && |t.procs| == |s.procs| && t.procs == s.procs[i := t.procs[i]] &&
        ProcJobs(t.procs[i]) == ProcJobs(s.procs[i]))
    requires t.jobs == s.jobs && t.worker == s.worker && t.finished == s.finished && t.dropped == s.dropped
    ensures JobsHeld(t) == JobsHeld(s)
  {
    if t.procs != s.procs { GatherSame(s.procs, i, t.procs[i], ProcJobs); }
    hide Gather, ProcJobs;
  }

  lemma HandOffKeepsJobs(s: State, i: nat)
    ensures JobsHeld(ApplyRelease(s, HandOff(i))) == JobsHeld(s)
  {
    hide JobsHeld;
    OthersKeepJobs(s, ApplyRelease(s, HandOff(i)), i);
  }

  lemma CloseKeepsJobs(s: State, i: nat)
    ensures JobsHeld(ApplyRelease(s, CloseChan(i))) == JobsHeld(s)
  {
    hide JobsHeld;
    OthersKeepJobs(s, ApplyRelease(s, CloseChan(i)), i);
  }

  lemma PutBackKeepsJobs(s: State, i: nat)
    ensures JobsHeld(ApplyRelease(s, CountUp(i))) == JobsHeld(s)
    ensures JobsHeld(ApplyRelease(s, PutBack(i))) == JobsHeld(s)
  {
    hide JobsHeld;
    OthersKeepJobs(s, ApplyRelease(s, CountUp(i)), i);
    OthersKeepJobs(s, ApplyRelease(s, PutBack(i)), i);
  }

  lemma ReleaseKeepsJobs(s: State, a: Act)
    ensures JobsHeld(ApplyRelease(s, a)) == JobsHeld(s)
  {
    hide JobsHeld;
    match a
    case Finish(i) => if i < |s.procs| && s.procs[i].Running? { FinishKeepsJobs(s, i); }
    case HandOff(i) => HandOffKeepsJobs(s, i);
    case CloseChan(i) => CloseKeepsJobs(s, i);
    case CountUp(i) => PutBackKeepsJobs(s, i);
    case PutBack(i) => PutBackKeepsJobs(s, i);
    case _ =>
  }

  lemma AddKeepsJobs(s: State, a: Act)
    ensures JobsHeld(ApplyAdd(s, a)) == JobsHeld(s) + if a.StartAdd? then multiset{a.job} else multiset{}
  {
    hide JobsHeld;
    match a
    case StartAdd(job) => StartAddBringsJob(s, job);
    case AddOk(i) => if i < |s.procs| && s.procs[i].Adding? { AddOkKeepsJobs(s, i); }
    case AddFail(i) => if i < |s.procs| && s.procs[i].Adding? { AddFailKeepsJobs(s, i); }
    case AddReturn(i) => OthersKeepJobs(s, ApplyAdd(s, a), i);
    case _ =>
  }

  lemma StartAddBringsJob(s: State, job: Job)
    ensures JobsHeld(ApplyAdd(s, StartAdd(job))) == JobsHeld(s) + multiset{job}
  {
    hide Gather;
    GatherAppend(s.procs, Adding(job), ProcJobs);
    Inside(multiset(s.jobs) + WorkerJobs(s.worker), Gather(s.procs, ProcJobs), s.finished, s.dropped, multiset{job});
  }

  lemma Inside(a: multiset<nat>, g: multiset<nat>, b: multiset<nat>, c: multiset<nat>, x: multiset<nat>)
    ensures a + (g + x) + b + c == a + g + b + c + x
    ensures a + multiset{} + (g + x) + b + c == a + x + g + b + c
  {
  }

  /** Only a new AddJob brings a job in, and no action loses or copies one. */
  lemma StepKeepsJobs(s: State, a: Act)
    ensures JobsHeld(Apply(s, a)) == JobsHeld(s) + if a.StartAdd? && !s.panicked then multiset{a.job} else multiset{}
  {
    AddKeepsJobs(s, a);
    WorkerKeepsJobs(s, a);
    ReleaseKeepsJobs(s, a);
    hide JobsHeld, ApplyAdd, ApplyWorker, ApplyRelease;
  }

  /** The jobs whose AddJob failed along a schedule. */
  function AddFailures(s: State, acts: seq<Act>): multiset<Job> {
    if acts == [] then multiset{} else
    var t, a := Exec(s, acts[..|acts| - 1]), acts[|acts| - 1];
    AddFailures(s, acts[..|acts| - 1]) +
    if a.AddFail? && !t.panicked && a.i < |t.procs| && t.procs[a.i].Adding? then multiset{t.procs[a.i].job}
      else multiset{}
  }

  lemma DropStep(s: State, a: Act)
    ensures Apply(s, a).dropped == s.dropped +
      if a.AddFail? && !s.panicked && a.i < |s.procs| && s.procs[a.i].Adding? then multiset{s.procs[a.i].job}
        else multiset{}
  {
  }

  /** A server drops a job only by a failed AddJob. */
  lemma {:induction false} OnlyAddFailuresDrop(n: nat, acts: seq<Act>)
    ensures Exec(Init(n), acts).dropped == AddFailures(Init(n), acts)
  {
    if acts != [] {
      OnlyAddFailuresDrop(n, acts[..|acts| - 1]);
      DropStep(Exec(Init(n), acts[..|acts| - 1]), acts[|acts| - 1]);
      hide Apply;
    }
  }
}

/** The whole back end: the scheduler, any number of sandbox servers, and the messages between. */
module System {
  import opened Folds
  import S = Scheduler
  import SI = SchedulerInvariant
  import ST = SchedulerTheorems
  import B = BoxAllocator
  import BI = BoxInvariant
  import BJ = BoxJobs

  type Job = nat

  /** `transit` holds the jobs sent on a stream and not yet taken up by an AddJob. */
  datatype State = State(sched: S.State, boxes: seq<B.State>, transit: multiset<Job>)

  datatype Act =
    | Schedule(a: S.Act)
    | Serve(k: nat, b: B.Act)
    | Deliver(k: nat, job: Job)
    | StartServer(n: nat)

  function Init(): State { State(S.Init(), [], multiset{}) }

  function Apply(s: State, a: Act): State {
    match a
    case Schedule(x) =>
      var t := S.Apply(s.sched, x);
      s.(sched := t, transit := s.transit + (t.sent - s.sched.sent))
    case Serve(k, b) =>
      if k < |s.boxes| && !b.StartAdd? then s.(boxes := s.boxes[k := B.Apply(s.boxes[k], b)]) else s
    case Deliver(k, job) =>
      if k < |s.boxes| && !s.boxes[k].panicked && job in s.transit then
        s.(boxes := s.boxes[k := B.Apply(s.boxes[k], B.StartAdd(job))], transit := s.transit - multiset{job})
      else s
    case StartServer(n) => s.(boxes := s.boxes + [B.Init(n)])
  }

  function Exec(s: State, acts: seq<Act>): State {
    if acts == [] then s else Apply(Exec(s, acts[..|acts| - 1]), acts[|acts| - 1])
  }

  function OnServers(s: State): multiset<nat> { Gather(s.boxes, B.JobsHeld) }

  /** Every job handed to ReserveJob: global queue, dispatcher's hand, instance channels and senders'
      hands, in transit, on some server (adding, queued, with the worker, running, finished or dropped
      there), or dropped by a failed Send. */
  function JobsHeld(s: State): multiset<nat> {
    multiset(s.sched.queue) + S.DispJobs(s.sched.disp) + Gather(s.sched.insts, S.InstJobs)
    + (s.transit + OnServers(s)) + s.sched.dropped
  }

  /** What was sent is in transit or on a server. */
  ghost predicate Inv(s: State) {
    S.Inv(s.sched) && s.sched.sent == s.transit + OnServers(s)
  }

  lemma SentGrows(s: S.State, a: S.Act)
    ensures s.sent <= S.Apply(s, a).sent
  {
  }

  lemma FreshServer(n: nat)
    ensures B.JobsHeld(B.Init(n)) == multiset{}
  {
  }

  lemma StepKeepsInv(s: State, a: Act)
    requires Inv(s)
    ensures Inv(Apply(s, a))
  {
    hide S.Inv, B.JobsHeld, B.Apply;
    match a
    case Schedule(x) => ScheduleKeepsInv(s, x);
    case Serve(k, b) =>
      if k < |s.boxes| && !b.StartAdd? {
        BJ.StepKeepsJobs(s.boxes[k], b);
        GatherSame(s.boxes, k, B.Apply(s.boxes[k], b), B.JobsHeld);
      }
    case Deliver(k, job) =>
      if k < |s.boxes| && !s.boxes[k].panicked && job in s.transit { DeliverKeepsInv(s, k, job); }
    case StartServer(n) =>
      FreshServer(n);
      GatherAppend(s.boxes, B.Init(n), B.JobsHeld);
      hide Gather;
  }

  lemma ScheduleKeepsInv(s: State, x: S.Act)
    requires Inv(s)
    ensures Inv(Apply(s, Schedule(x)))
  {
    hide S.Inv, Gather;
    SI.StepKeepsInv(s.sched, x);
    SentGrows(s.sched, x);
    hide S.Apply;
    var t := Apply(s, Schedule(x));
    var more := t.sched.sent - s.sched.sent;
    assert t.sched.sent == s.sched.sent + more;
    assert s.transit + more + OnServers(s) == s.transit + OnServers(s) + more;
  }

  lemma DeliverKeepsInv(s: State, k: nat, job: Job)
    requires Inv(s) && k < |s.boxes| && !s.boxes[k].panicked && job in s.transit
    ensures Inv(Apply(s, Deliver(k, job)))
  {
    hide S.Inv, B.JobsHeld, B.Apply;
    var t, x := Apply(s, Deliver(k, job)), multiset{job};
    BJ.StepKeepsJobs(s.boxes[k], B.StartAdd(job));
    GatherUpdate(s.boxes, k, t.boxes[k], B.JobsHeld);
    hide Gather;
    assert OnServers(t) == OnServers(s) + x;
    assert s.transit - x + (OnServers(s) + x) == s.transit + OnServers(s);
  }

  lemma {:induction false} EveryScheduleKeepsInv(acts: seq<Act>)
    ensures Inv(Exec(Init(), acts))
  {
    if acts == [] {
      SI.EveryScheduleKeepsInv([]);
    } else {
      EveryScheduleKeepsInv(acts[..|acts| - 1]);
      hide Inv;
      StepKeepsInv(Exec(Init(), acts[..|acts| - 1]), acts[|acts| - 1]);
    }
  }

  /** In every run of the whole system, every job submitted is in exactly one place. */
  lemma JobsInOnePlace(acts: seq<Act>)
    ensures var s := Exec(Init(), acts); JobsHeld(s) == Upto(s.sched.submitted)
  {
    EveryScheduleKeepsInv(acts);
    InOnePlace(Exec(Init(), acts));
  }

  lemma InOnePlace(s: State)
    requires Inv(s)
    ensures JobsHeld(s) == Upto(s.sched.submitted)
  {
    hide S.Shape, S.Counters, Gather, Upto;
  }

  // ------------------------------------------------- servers in the system

  /** Every server is in a good state: boxes, counter and channels are as BoxInvariant says. */
  ghost predicate ServersGood(s: State) { forall k :: 0 <= k < |s.boxes| ==> B.Inv(s.boxes[k]) }

  lemma ServersStayGood(s: State, a: Act)
    requires ServersGood(s)
    ensures ServersGood(Apply(s, a))
  {
    hide B.Inv, B.Apply, S.Apply;
    match a
    case Serve(k, b) => if k < |s.boxes| { BI.StepKeepsInv(s.boxes[k], b); }
    case Deliver(k, job) => if k < |s.boxes| { BI.StepKeepsInv(s.boxes[k], B.StartAdd(job)); }
    case StartServer(n) => BI.InitInv(n);
    case Schedule(_) =>
  }

  /** In every run of the whole system, every server satisfies the allocator's invariant. */
  lemma {:induction false} EveryServerGood(acts: seq<Act>)
    ensures ServersGood(Exec(Init(), acts))
  {
    if acts != [] {
      EveryServerGood(acts[..|acts| - 1]);
      ServersStayGood(Exec(Init(), acts[..|acts| - 1]), acts[|acts| - 1]);
    }
  }

  // ------------------------------------------------- dropped jobs

  function DroppedOn(b: B.State): multiset<nat> { b.dropped }

  function Dropped(s: State): multiset<nat> { s.sched.dropped + Gather(s.boxes, DroppedOn) }

  /** The job whose Send or AddJob fails in this step. */
  function FailedBy(s: State, a: Act): multiset<Job> {
    match a
    case Schedule(x) =>
      if x.SendFail? && !s.sched.panicked && x.i < |s.sched.insts| && s.sched.insts[x.i].sender.Holding?
      then multiset{s.sched.insts[x.i].sender.job} else multiset{}
    case Serve(k, b) =>
      if k < |s.boxes| && b.AddFail? && !s.boxes[k].panicked && b.i < |s.boxes[k].procs| &&
        s.boxes[k].procs[b.i].Adding?
      then multiset{s.boxes[k].procs[b.i].job} else multiset{}
    case _ => multiset{}
  }

  function Failures(s: State, acts: seq<Act>): multiset<Job> {
    if acts == [] then multiset{} else
    Failures(s, acts[..|acts| - 1]) + FailedBy(Exec(s, acts[..|acts| - 1]), acts[|acts| - 1])
  }

  lemma ServerDrops(boxes: seq<B.State>, k: nat, b: B.State, x: multiset<nat>)
    requires k < |boxes| && b.dropped == boxes[k].dropped + x
    ensures Gather(boxes[k := b], DroppedOn) == Gather(boxes, DroppedOn) + x
  {
    GatherUpdate(boxes, k, b, DroppedOn);
    hide Gather;
  }

  lemma DropStep(s: State, a: Act)
    ensures Dropped(Apply(s, a)) == Dropped(s) + FailedBy(s, a)
  {
    hide B.Apply, S.Apply;
    match a
    case Schedule(x) => ST.DropStep(s.sched, x);
    case Serve(k, b) =>
      if k < |s.boxes| && !b.StartAdd? {
        BJ.DropStep(s.boxes[k], b);
        ServerDrops(s.boxes, k, B.Apply(s.boxes[k], b), FailedBy(s, a));
      }
    case Deliver(k, job) =>
      if k < |s.boxes| {
        BJ.DropStep(s.boxes[k], B.StartAdd(job));
        ServerDrops(s.boxes, k, B.Apply(s.boxes[k], B.StartAdd(job)), multiset{});
      }
    case StartServer(n) => GatherAppend(s.boxes, B.Init(n), DroppedOn); hide Gather;
  }

  /** In every run of the whole system the dropped jobs are exactly those whose Send or AddJob failed, each once. */
  lemma {:induction false} OnlyFailuresDrop(acts: seq<Act>)
    ensures Dropped(Exec(Init(), acts)) == Failures(Init(), acts)
    ensures forall j: nat :: Failures(Init(), acts)[j] <= 1
  {
    hide Apply, FailedBy, Dropped;
    if acts != [] {
      OnlyFailuresDrop(acts[..|acts| - 1]);
      DropStep(Exec(Init(), acts[..|acts| - 1]), acts[|acts| - 1]);
    } else {
      NothingDropped();
    }
    JobsInOnePlace(acts);
    DroppedOnce(Exec(Init(), acts));
  }

  lemma NothingDropped()
    ensures Dropped(Init()) == multiset{}
  {
  }

  lemma DroppedOnce(s: State)
    requires JobsHeld(s) == Upto(s.sched.submitted)
    ensures forall j: nat :: Dropped(s)[j] <= 1
  {
    forall b | b in s.boxes ensures DroppedOn(b) <= B.JobsHeld(b) {}
    GatherWithin(s.boxes, DroppedOn, B.JobsHeld);
    hide Gather;
    assert Dropped(s) <= JobsHeld(s);
    forall j: nat ensures Dropped(s)[j] <= 1 {
      assert Dropped(s)[j] <= Upto(s.sched.submitted)[j];
    }
  }

  // ------------------------------------------------- judged once

  function RunningJob(p: B.Proc): multiset<nat> { if p.Running? then multiset{p.job} else multiset{} }

  /** Jobs a server is judging or has judged. */
  function Judging(b: B.State): multiset<nat> { Gather(b.procs, RunningJob) + b.finished }

  function Judged(s: State): multiset<nat> { Gather(s.boxes, Judging) }

  lemma JudgingIsHeld(b: B.State)
    ensures Judging(b) <= B.JobsHeld(b)
  {
    GatherWithin(b.procs, RunningJob, B.ProcJobs);
  }

  /** No job is being judged or has been judged twice, on one server or on two. */
  lemma JudgedOnce(acts: seq<Act>, j: Job)
    ensures Judged(Exec(Init(), acts))[j] <= 1
  {
    JobsInOnePlace(acts);
    JudgedSubmitted(Exec(Init(), acts), j);
  }

  /** Only submitted jobs are judged, each once. */
  lemma JudgedSubmitted(s: State, j: Job)
    requires JobsHeld(s) == Upto(s.sched.submitted)
    ensures Judged(s)[j] <= if j < s.sched.submitted then 1 else 0
  {
    forall b | b in s.boxes ensures Judging(b) <= B.JobsHeld(b) { JudgingIsHeld(b); }
    GatherWithin(s.boxes, Judging, B.JobsHeld);
    hide Gather;
    assert Judged(s)[j] <= OnServers(s)[j] <= JobsHeld(s)[j];
  }

  lemma LaunchJudges(b: B.State)
    requires b.worker.Reserved?
    ensures Judging(b) <= Judging(B.ApplyWorker(b, B.Launch))
  {
    GatherAppend(b.procs, B.Running(b.worker.job, b.worker.box), RunningJob);
    hide Gather;
  }

  lemma FinishJudges(b: B.State, i: nat)
    requires i < |b.procs| && b.procs[i].Running?
    ensures Judging(B.ApplyRelease(b, B.Finish(i))) == Judging(b)
  {
    hide Gather;
    var t, x := B.ApplyRelease(b, B.Finish(i)), multiset{b.procs[i].job};
    GatherUpdate(b.procs, i, t.procs[i], RunningJob);
    assert t.procs == b.procs[i := t.procs[i]];
    assert Gather(b.procs, RunningJob) - x + (b.finished + x) == Gather(b.procs, RunningJob) + b.finished;
  }

  /** No goroutine's running state and nothing finished changes otherwise. */
  lemma QuietJudging(b: B.State, t: B.State, i: nat)
    requires t.finished == b.finished
    requires t.procs == b.procs ||
      (i < |b.procs| && |t.procs| == |b.procs| && t.procs == b.procs[i := t.procs[i]] &&
        RunningJob(t.procs[i]) == RunningJob(b.procs[i]))
    ensures Judging(t) == Judging(b)
  {
    if t.procs != b.procs { GatherSame(b.procs, i, t.procs[i], RunningJob); }
    hide Gather, RunningJob;
  }

  lemma AddJudges(b: B.State, a: B.Act)
    ensures Judging(b) <= Judging(B.ApplyAdd(b, a))
  {
    match a
    case StartAdd(job) => GatherAppend(b.procs, B.Adding(job), RunningJob); hide Gather;
    case AddOk(i) => QuietJudging(b, B.ApplyAdd(b, a), i);
    case AddFail(i) => QuietJudging(b, B.ApplyAdd(b, a), i);
    case AddReturn(i) => QuietJudging(b, B.ApplyAdd(b, a), i);
    case _ =>
  }

  lemma HandOverJudges(b: B.State, i: nat, a: B.Act)
    requires a == B.HandOff(i) || a == B.CloseChan(i)
    ensures Judging(B.ApplyRelease(b, a)) == Judging(b)
  {
    hide Judging;
    QuietJudging(b, B.ApplyRelease(b, a), i);
  }

  lemma ReleaseJudges(b: B.State, a: B.Act)
    ensures Judging(b) <= Judging(B.ApplyRelease(b, a))
  {
    hide Judging;
    match a
    case Finish(i) => if i < |b.procs| && b.procs[i].Running? { FinishJudges(b, i); }
    case HandOff(i) => HandOverJudges(b, i, a);
    case CloseChan(i) => HandOverJudges(b, i, a);
    case CountUp(i) => QuietJudging(b, B.ApplyRelease(b, a), i);
    case PutBack(i) => QuietJudging(b, B.ApplyRelease(b, a), i);
    case _ =>
  }

  lemma WorkerJudges(b: B.State, a: B.Act)
    ensures Judging(b) <= Judging(B.ApplyWorker(b, a))
  {
    if a == B.Launch {
      if b.worker.Reserved? { LaunchJudges(b); }
    } else {
      QuietJudging(b, B.ApplyWorker(b, a), 0);
    }
  }

  lemma ServerJudges(b: B.State, a: B.Act)
    ensures Judging(b) <= Judging(B.Apply(b, a))
  {
    AddJudges(b, a);
    WorkerJudges(b, a);
    ReleaseJudges(b, a);
    hide Judging, B.ApplyAdd, B.ApplyWorker, B.ApplyRelease;
  }

  /** A judging once begun counts for ever, so with JudgedOnce no job's judging begins twice. */
  lemma JudgedGrows(s: State, a: Act)
    ensures Judged(s) <= Judged(Apply(s, a))
  {
    hide Judging, B.Apply, S.Apply;
    match a
    case Serve(k, b) =>
      if k < |s.boxes| { ServerJudges(s.boxes[k], b); OneServerGrows(s.boxes, k, B.Apply(s.boxes[k], b)); }
    case Deliver(k, job) =>
      if k < |s.boxes| {
        ServerJudges(s.boxes[k], B.StartAdd(job));
        OneServerGrows(s.boxes, k, B.Apply(s.boxes[k], B.StartAdd(job)));
      }
    case StartServer(n) => GatherAppend(s.boxes, B.Init(n), Judging);
    case Schedule(_) =>
  }

  lemma OneServerGrows(boxes: seq<B.State>, k: nat, b: B.State)
    requires k < |boxes| && Judging(boxes[k]) <= Judging(b)
    ensures Gather(boxes, Judging) <= Gather(boxes[k := b], Judging)
  {
    hide Judging;
    GatherUpdate(boxes, k, b, Judging);
    hide Gather;
  }
}
