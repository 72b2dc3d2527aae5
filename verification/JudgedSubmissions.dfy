/** The whole back end with its submissions table: handlers insert rows and queue jobs for them, servers judge the
    jobs, and every judging goroutine writes to its job's row without looking at what is there. */
module JudgedSubmissions {
  import opened Folds
  import opened JudgeRun
  import L = Leaderboard
  import LT = LeaderboardTheorems
  import LR = LeaderboardResponses
  import S = Scheduler
  import B = BoxAllocator
  import Sys = System

  type Job = nat
  type Row = nat

  /** `rowOf` maps jobs to rows, `unqueued` are the rows a handler has inserted and not queued or given up yet, and
      `own` holds the scores each goroutine (by server and number) knows of: its row's first and those it wrote. */
  datatype State = State(
    sys: Sys.State, start: L.Database, writes: seq<LT.Write>,
    rowOf: seq<Row>, unqueued: set<Row>, own: map<(nat, nat), seq<real>>)
  {
    function Table(): L.Database { LT.Exec(start, writes) }
  }

  datatype Act =
    | Run(a: Sys.Act)                              // anything the machines do by themselves
    | NewRow(rel: L.Id, createdAt: int)            // a handler inserts a waiting row
    | Queue(row: Row)                              // and queues a job for it
    | GiveUp(row: Row)                             // or gives it up
    | Update(k: nat, i: nat, score: real)          // a judging goroutine stores a score

  function Init(start: L.Database): State { State(Sys.Init(), start, [], [], {}, map[]) }

  predicate Judges(s: Sys.State, k: nat, i: nat) {
    k < |s.boxes| && i < |s.boxes[k].procs| && s.boxes[k].procs[i].Running?
  }

  function JobOf(s: Sys.State, k: nat, i: nat): Job
    requires Judges(s, k, i)
  {
    s.boxes[k].procs[i].job
  }

  function OwnOf(own: map<(nat, nat), seq<real>>, k: nat, i: nat): seq<real> {
    if (k, i) in own then own[(k, i)] else [PENDING]
  }

  function Own(s: State, k: nat, i: nat): seq<real> { OwnOf(s.own, k, i) }

  function Writes(s: State, w: LT.Write): State { s.(writes := s.writes + [w]) }

  /** A goroutine's next score is one that JudgeRun can store next; the table is not consulted. */
  function Apply(s: State, a: Act): State {
    match a
    case Run(x) => if x == Sys.Schedule(S.Submit) then s else s.(sys := Sys.Apply(s.sys, x))
    case NewRow(rel, createdAt) =>
      Writes(s, LT.Insert(rel, createdAt)).(unqueued := s.unqueued + {|s.Table().submissions|})
    case Queue(row) =>
      if row in s.unqueued && !s.sys.sched.panicked then
        s.(sys := Sys.Apply(s.sys, Sys.Schedule(S.Submit)), rowOf := s.rowOf + [row], unqueued := s.unqueued - {row})
      else s
    case GiveUp(row) =>
      if row in s.unqueued then Writes(s, LT.Store(row, ABORTED)).(unqueued := s.unqueued - {row}) else s
    case Update(k, i, score) =>
      if Judges(s.sys, k, i) && JobOf(s.sys, k, i) < |s.rowOf| && Lifecycle(Own(s, k, i) + [score]) then
        Writes(s, LT.Store(s.rowOf[JobOf(s.sys, k, i)], score)).(own := s.own[(k, i) := Own(s, k, i) + [score]])
      else s
  }

  function Exec(s: State, acts: seq<Act>): State {
    if acts == [] then s else Apply(Exec(s, acts[..|acts| - 1]), acts[|acts| - 1])
  }

  // ------------------------------------------------- one goroutine per job

  lemma JudgesIsHeld(s: Sys.State, k: nat, i: nat)
    requires Judges(s, k, i)
    ensures Sys.RunningJob(s.boxes[k].procs[i]) == multiset{JobOf(s, k, i)}
    ensures multiset{JobOf(s, k, i)} <= Sys.Judging(s.boxes[k]) <= Sys.Judged(s)
  {
    var b := s.boxes[k];
    GatherUpdate(b.procs, i, b.procs[i], Sys.RunningJob);
    GatherUpdate(s.boxes, k, b, Sys.Judging);
    hide Gather;
  }

  /** A running job has been submitted, and no other goroutine anywhere runs it. */
  lemma OneJudge(s: Sys.State, k: nat, i: nat, l: nat, j: nat)
    requires Sys.Inv(s) && Judges(s, k, i) && Judges(s, l, j)
    ensures JobOf(s, k, i) < s.sched.submitted
    ensures JobOf(s, k, i) == JobOf(s, l, j) ==> k == l && i == j
  {
    var x := JobOf(s, k, i);
    JudgesIsHeld(s, k, i);
    JudgesIsHeld(s, l, j);
    Sys.InOnePlace(s);
    Sys.JudgedSubmitted(s, x);
    hide Sys.Inv;
    if x == JobOf(s, l, j) && (k != l || i != j) {
      TwoJudges(s, k, i, l, j);
    }
  }

  lemma TwoJudges(s: Sys.State, k: nat, i: nat, l: nat, j: nat)
    requires Judges(s, k, i) && Judges(s, l, j) && (k != l || i != j) && JobOf(s, k, i) == JobOf(s, l, j)
    ensures Sys.Judged(s)[JobOf(s, k, i)] >= 2
  {
    var x := JobOf(s, k, i);
    JudgesIsHeld(s, k, i);
    JudgesIsHeld(s, l, j);
    if k == l {
      GatherPair(s.boxes[k].procs, i, j, Sys.RunningJob);
      assert Sys.Judging(s.boxes[k])[x] >= 2;
    } else {
      GatherPair(s.boxes, k, l, Sys.Judging);
      assert (Sys.Judging(s.boxes[k]) + Sys.Judging(s.boxes[l]))[x] >= 2;
    }
  }

  // ------------------------------------------------- what a step does to the goroutines

  /** Goroutines keep their numbers; one that runs now ran before or is the worker's newest. */
  ghost predicate Carried(b: B.State, c: B.State) {
    && |b.procs| <= |c.procs|
    && (forall i :: 0 <= i < |c.procs| && c.procs[i].Running? ==>
          (i < |b.procs| && b.procs[i] == c.procs[i])
          || (i == |b.procs| && Sys.Judging(c) == Sys.Judging(b) + multiset{c.procs[i].job}))
  }

  lemma LaunchJudging(b: B.State)
    requires b.worker.Reserved?
    ensures var c := B.ApplyWorker(b, B.Launch);
      && c.procs == b.procs + [B.Running(b.worker.job, b.worker.box)]
      && Sys.Judging(c) == Sys.Judging(b) + multiset{b.worker.job}
  {
    var p, c := B.Running(b.worker.job, b.worker.box), B.ApplyWorker(b, B.Launch);
    assert c.procs == b.procs + [p] && c.finished == b.finished;
    hide B.ApplyWorker;
    NewestRuns(b, c, p);
  }

  lemma NewestRuns(b: B.State, c: B.State, p: B.Proc)
    requires c.procs == b.procs + [p] && c.finished == b.finished && p.Running?
    ensures Sys.Judging(c) == Sys.Judging(b) + multiset{p.job}
  {
    GatherAppend(b.procs, p, Sys.RunningJob);
    hide Gather;
    Swapped(Gather(b.procs, Sys.RunningJob), multiset{p.job}, b.finished);
  }

  lemma Swapped(g: multiset<nat>, x: multiset<nat>, f: multiset<nat>)
    ensures g + x + f == g + f + x
  {
  }

  lemma LaunchCarries(b: B.State)
    requires b.worker.Reserved?
    ensures Carried(b, B.ApplyWorker(b, B.Launch))
  {
    LaunchJudging(b);
    hide Sys.Judging, B.ApplyWorker;
  }

  lemma StepCarries(b: B.State, a: B.Act)
    ensures Carried(b, B.Apply(b, a))
  {
    if a == B.Launch && b.worker.Reserved? {
      LaunchCarries(b);
    }
    AddCarries(b, a);
    WorkerCarries(b, a);
    ReleaseCarries(b, a);
    hide Sys.Judging, B.ApplyAdd, B.ApplyWorker, B.ApplyRelease;
  }

  lemma AddCarries(b: B.State, a: B.Act)
    ensures Carried(b, B.ApplyAdd(b, a))
  {
    hide Sys.Judging;
  }

  lemma ReleaseCarries(b: B.State, a: B.Act)
    ensures Carried(b, B.ApplyRelease(b, a))
  {
    hide Sys.Judging;
  }

  lemma WorkerCarries(b: B.State, a: B.Act)
    ensures Carried(b, B.ApplyWorker(b, a))
  {
    if a == B.Launch && b.worker.Reserved? {
      LaunchCarries(b);
    }
    hide Sys.Judging;
  }

  /** A goroutine ran the same job before, or is new and runs a job that nobody has judged before. */
  ghost predicate CarriedJudge(s: Sys.State, t: Sys.State, k: nat, i: nat)
    requires Judges(t, k, i)
  {
    || (Judges(s, k, i) && JobOf(s, k, i) == JobOf(t, k, i))
    || ((k < |s.boxes| ==> i >= |s.boxes[k].procs|) && Sys.Judged(s)[JobOf(t, k, i)] == 0)
  }

  /** The same for all servers. */
  ghost predicate AllCarried(s: Sys.State, t: Sys.State) {
    && |s.boxes| <= |t.boxes|
    && (forall k :: 0 <= k < |s.boxes| ==> |s.boxes[k].procs| <= |t.boxes[k].procs|)
    && (forall k: nat, i: nat :: Judges(t, k, i) ==> CarriedJudge(s, t, k, i))
  }

  lemma NewJudge(boxes: seq<B.State>, k: nat, c: B.State, x: Job)
    requires k < |boxes| && Sys.Judging(c) == Sys.Judging(boxes[k]) + multiset{x}
    ensures Gather(boxes[k := c], Sys.Judging) == Gather(boxes, Sys.Judging) + multiset{x}
  {
    hide Sys.Judging;
    GatherUpdate(boxes, k, c, Sys.Judging);
    hide Gather;
    var g, j := Gather(boxes, Sys.Judging), Sys.Judging(boxes[k]);
    assert g - j + (j + multiset{x}) == g + multiset{x};
  }

  lemma OneServerCarries(s: Sys.State, t: Sys.State, k: nat)
    requires k < |s.boxes| && |t.boxes| == |s.boxes| && t.boxes == s.boxes[k := t.boxes[k]]
    requires Carried(s.boxes[k], t.boxes[k]) && forall j: Job :: Sys.Judged(t)[j] <= 1
    ensures AllCarried(s, t)
  {
    hide Gather, Sys.Judging;
    forall l: nat, i: nat | Judges(t, l, i) ensures CarriedJudge(s, t, l, i) {
      if l == k {
        CarriedOn(s, t, k, i);
      }
    }
  }

  lemma CarriedOn(s: Sys.State, t: Sys.State, k: nat, i: nat)
    requires k < |s.boxes| && |t.boxes| == |s.boxes| && t.boxes == s.boxes[k := t.boxes[k]] && Judges(t, k, i)
    requires Carried(s.boxes[k], t.boxes[k]) && Sys.Judged(t)[JobOf(t, k, i)] <= 1
    ensures CarriedJudge(s, t, k, i)
  {
    hide Gather, Sys.Judging;
    var x, b, c := JobOf(t, k, i), s.boxes[k], t.boxes[k];
    if !(i < |b.procs| && b.procs[i] == c.procs[i]) {
      assert Sys.Judging(c) == Sys.Judging(b) + multiset{x};
      NewJudge(s.boxes, k, c, x);
      assert Sys.Judged(t)[x] == Sys.Judged(s)[x] + 1;
    }
  }

  /** No server moves, or an empty one starts. */
  lemma NoneCarries(s: Sys.State, t: Sys.State)
    requires s.boxes <= t.boxes && forall k :: |s.boxes| <= k < |t.boxes| ==> t.boxes[k].procs == []
    ensures AllCarried(s, t)
  {
    hide Sys.Judged;
    assert forall k :: 0 <= k < |s.boxes| ==> t.boxes[k] == s.boxes[k];
  }

  lemma ServerCarries(s: Sys.State, t: Sys.State, k: nat, a: B.Act)
    requires k < |s.boxes| && t.boxes == s.boxes[k := B.Apply(s.boxes[k], a)]
    requires forall j: Job :: Sys.Judged(t)[j] <= 1
    ensures AllCarried(s, t)
  {
    hide Sys.Judged, B.Apply, Carried, AllCarried;
    StepCarries(s.boxes[k], a);
    OneServerCarries(s, t, k);
  }

  lemma SystemCarries(s: Sys.State, a: Sys.Act)
    requires Sys.Inv(s)
    ensures AllCarried(s, Sys.Apply(s, a))
  {
    hide Sys.Inv, Sys.Judged, B.Apply, S.Apply, AllCarried;
    var t := Sys.Apply(s, a);
    Sys.StepKeepsInv(s, a);
    AtMostOnce(t);
    if a.Serve? && a.k < |s.boxes| && !a.b.StartAdd? {
      ServerCarries(s, t, a.k, a.b);
    } else if a.Deliver? && a.k < |s.boxes| && !s.boxes[a.k].panicked && a.job in s.transit {
      ServerCarries(s, t, a.k, B.StartAdd(a.job));
    } else {
      NoneCarries(s, t);
    }
  }

  lemma AtMostOnce(s: Sys.State)
    requires Sys.Inv(s)
    ensures forall j: Job :: Sys.Judged(s)[j] <= 1
  {
    Sys.InOnePlace(s);
    hide Sys.Inv, Sys.Judged;
    forall j: Job ensures Sys.Judged(s)[j] <= 1 {
      Sys.JudgedSubmitted(s, j);
    }
  }

  lemma OnlySubmitSubmits(s: Sys.State, a: Sys.Act)
    ensures a != Sys.Schedule(S.Submit) ==> Sys.Apply(s, a).sched.submitted == s.sched.submitted
    ensures a == Sys.Schedule(S.Submit) && !s.sched.panicked ==>
      Sys.Apply(s, a).sched.submitted == s.sched.submitted + 1 && Sys.Apply(s, a).boxes == s.boxes
  {
    hide B.Apply;
  }

  // ------------------------------------------------- the invariant

  /** Different jobs have different rows, and the rows not queued yet are others, still waiting. */
  ghost predicate RowsKnown(rows: seq<L.Submission>, rowOf: seq<Row>, unqueued: set<Row>) {
    && (forall j :: 0 <= j < |rowOf| ==> rowOf[j] < |rows| && rowOf[j] !in unqueued)
    && (forall i, j :: 0 <= i < j < |rowOf| ==> rowOf[i] != rowOf[j])
    && (forall r :: r in unqueued ==> r < |rows| && rows[r].score == PENDING)
  }

  /** A job that nobody has judged has a waiting row. */
  ghost predicate Untouched(rows: seq<L.Submission>, rowOf: seq<Row>, judged: multiset<Job>) {
    forall j :: 0 <= j < |rowOf| && judged[j] == 0 ==> rowOf[j] < |rows| && rows[rowOf[j]].score == PENDING
  }

  /** What the judge of a job last wrote is what its row holds. */
  predicate Holds(rows: seq<L.Submission>, rowOf: seq<Row>, job: Job, own: seq<real>) {
    && Lifecycle(own) && job < |rowOf| && rowOf[job] < |rows|
    && rows[rowOf[job]].score == own[|own| - 1]
  }

  ghost predicate Current(rows: seq<L.Submission>, rowOf: seq<Row>, sys: Sys.State, own: map<(nat, nat), seq<real>>) {
    forall k: nat, i: nat :: Judges(sys, k, i) ==> Holds(rows, rowOf, JobOf(sys, k, i), OwnOf(own, k, i))
  }

  ghost predicate OwnKnown(sys: Sys.State, own: map<(nat, nat), seq<real>>) {
    forall p :: p in own ==> p.0 < |sys.boxes| && p.1 < |sys.boxes[p.0].procs|
  }

  ghost predicate Inv(s: State) {
    var rows := s.Table().submissions;
    && Sys.Inv(s.sys) && |s.rowOf| == s.sys.sched.submitted
    && RowsKnown(rows, s.rowOf, s.unqueued) && Untouched(rows, s.rowOf, Sys.Judged(s.sys))
    && Current(rows, s.rowOf, s.sys, s.own) && OwnKnown(s.sys, s.own)
    && LT.Orderly(s.start, s.writes)
  }

  // ------------------------------------------------- the machines move

  lemma CurrentCarried(rows: seq<L.Submission>, rowOf: seq<Row>, s: Sys.State, t: Sys.State,
                       own: map<(nat, nat), seq<real>>)
    requires AllCarried(s, t) && OwnKnown(s, own)
    requires Untouched(rows, rowOf, Sys.Judged(s)) && Current(rows, rowOf, s, own)
    requires forall k: nat, i: nat :: Judges(t, k, i) ==> JobOf(t, k, i) < |rowOf|
    ensures Current(rows, rowOf, t, own) && OwnKnown(t, own)
  {
    hide Sys.Judged, Holds;
    forall k: nat, i: nat | Judges(t, k, i) ensures Holds(rows, rowOf, JobOf(t, k, i), OwnOf(own, k, i)) {
      assert CarriedJudge(s, t, k, i);
      if !(Judges(s, k, i) && JobOf(s, k, i) == JobOf(t, k, i)) {
        assert (k, i) !in own;
        FirstHolds(rows, rowOf, JobOf(t, k, i));
      }
    }
  }

  lemma FirstHolds(rows: seq<L.Submission>, rowOf: seq<Row>, job: Job)
    requires job < |rowOf| && rowOf[job] < |rows| && rows[rowOf[job]].score == PENDING
    ensures Holds(rows, rowOf, job, [PENDING])
  {
  }

  lemma JudgesSubmitted(s: Sys.State)
    requires Sys.Inv(s)
    ensures forall k: nat, i: nat :: Judges(s, k, i) ==> JobOf(s, k, i) < s.sched.submitted
  {
    hide Sys.Inv;
    forall k: nat, i: nat | Judges(s, k, i) ensures JobOf(s, k, i) < s.sched.submitted {
      OneJudge(s, k, i, k, i);
    }
  }

  lemma RunKeepsInv(s: State, x: Sys.Act)
    requires Inv(s) && x != Sys.Schedule(S.Submit)
    ensures Inv(Apply(s, Run(x)))
  {
    hide Sys.Inv, Sys.Judged, Sys.Apply, LT.Exec, LT.Orderly, RowsKnown, Current, OwnKnown;
    var rows, t := s.Table().submissions, Apply(s, Run(x));
    Sys.StepKeepsInv(s.sys, x);
    Sys.JudgedGrows(s.sys, x);
    OnlySubmitSubmits(s.sys, x);
    SystemCarries(s.sys, x);
    JudgesSubmitted(t.sys);
    hide AllCarried;
    CurrentCarried(rows, s.rowOf, s.sys, t.sys, s.own);
  }

  lemma RowQueued(rows: seq<L.Submission>, rowOf: seq<Row>, unqueued: set<Row>, judged: multiset<Job>, row: Row)
    requires RowsKnown(rows, rowOf, unqueued) && Untouched(rows, rowOf, judged) && row in unqueued
    ensures RowsKnown(rows, rowOf + [row], unqueued - {row}) && Untouched(rows, rowOf + [row], judged)
  {
  }

  lemma CurrentQueued(rows: seq<L.Submission>, rowOf: seq<Row>, row: Row, s: Sys.State, t: Sys.State,
                      own: map<(nat, nat), seq<real>>)
    requires Current(rows, rowOf, s, own) && OwnKnown(s, own) && t.boxes == s.boxes
    ensures Current(rows, rowOf + [row], t, own) && OwnKnown(t, own)
  {
    hide Lifecycle;
    forall k: nat, i: nat | Judges(t, k, i) ensures Holds(rows, rowOf + [row], JobOf(t, k, i), OwnOf(own, k, i)) {
      assert Holds(rows, rowOf, JobOf(s, k, i), OwnOf(own, k, i));
    }
  }

  lemma QueueKeepsInv(s: State, row: Row)
    requires Inv(s) && row in s.unqueued && !s.sys.sched.panicked
    ensures Inv(Apply(s, Queue(row)))
  {
    hide Sys.Inv, Sys.Apply, Gather, LT.Exec, LT.Orderly, RowsKnown, Untouched, Current, OwnKnown;
    var x, rows, t := Sys.Schedule(S.Submit), s.Table().submissions, Apply(s, Queue(row));
    Sys.StepKeepsInv(s.sys, x);
    OnlySubmitSubmits(s.sys, x);
    RowQueued(rows, s.rowOf, s.unqueued, Sys.Judged(s.sys), row);
    CurrentQueued(rows, s.rowOf, row, s.sys, t.sys, s.own);
  }

  // ------------------------------------------------- the table is written

  lemma RowsInserted(rows: seq<L.Submission>, more: L.Submission, rowOf: seq<Row>, unqueued: set<Row>,
                     judged: multiset<Job>)
    requires RowsKnown(rows, rowOf, unqueued) && Untouched(rows, rowOf, judged) && more.score == PENDING
    ensures RowsKnown(rows + [more], rowOf, unqueued + {|rows|}) && Untouched(rows + [more], rowOf, judged)
  {
  }

  /** A row that no job has changes, or a new one comes. */
  lemma CurrentElsewhere(rows: seq<L.Submission>, more: seq<L.Submission>, rowOf: seq<Row>, sys: Sys.State,
                         own: map<(nat, nat), seq<real>>)
    requires Current(rows, rowOf, sys, own) && |rows| <= |more|
    requires forall j :: 0 <= j < |rowOf| && rowOf[j] < |rows| ==> more[rowOf[j]] == rows[rowOf[j]]
    ensures Current(more, rowOf, sys, own)
  {
    hide Lifecycle;
    forall k: nat, i: nat | Judges(sys, k, i) ensures Holds(more, rowOf, JobOf(sys, k, i), OwnOf(own, k, i)) {
      assert Holds(rows, rowOf, JobOf(sys, k, i), OwnOf(own, k, i));
    }
  }

  lemma NewRowKeepsInv(s: State, rel: L.Id, createdAt: int)
    requires Inv(s)
    ensures Inv(Apply(s, NewRow(rel, createdAt)))
  {
    hide Sys.Inv, Sys.Judged, LT.Exec, LT.Orderly, RowsKnown, Untouched, Current, OwnKnown;
    var w, rows, t := LT.Insert(rel, createdAt), s.Table().submissions, Apply(s, NewRow(rel, createdAt));
    LT.ExecOne(s.start, s.writes, w);
    LT.OrderlyStep(s.start, s.writes, w);
    RowsInserted(rows, L.Submission(rel, PENDING, createdAt), s.rowOf, s.unqueued, Sys.Judged(s.sys));
    CurrentElsewhere(rows, t.Table().submissions, s.rowOf, s.sys, s.own);
  }

  lemma RowGivenUp(rows: seq<L.Submission>, rowOf: seq<Row>, unqueued: set<Row>, judged: multiset<Job>, row: Row)
    requires RowsKnown(rows, rowOf, unqueued) && Untouched(rows, rowOf, judged) && row in unqueued
    ensures row < |rows| && rows[row].score == PENDING && forall j :: 0 <= j < |rowOf| ==> rowOf[j] != row
    ensures var more := rows[row := rows[row].(score := ABORTED)];
      RowsKnown(more, rowOf, unqueued - {row}) && Untouched(more, rowOf, judged)
  {
  }

  lemma GiveUpKeepsInv(s: State, row: Row)
    requires Inv(s) && row in s.unqueued
    ensures Inv(Apply(s, GiveUp(row)))
  {
    hide Sys.Inv, Sys.Judged, LT.Exec, LT.Orderly, RowsKnown, Untouched, Current, OwnKnown;
    var w, rows, t := LT.Store(row, ABORTED), s.Table().submissions, Apply(s, GiveUp(row));
    RowGivenUp(rows, s.rowOf, s.unqueued, Sys.Judged(s.sys), row);
    LT.ExecOne(s.start, s.writes, w);
    LT.OrderlyStep(s.start, s.writes, w);
    CurrentElsewhere(rows, t.Table().submissions, s.rowOf, s.sys, s.own);
  }

  lemma RowUpdated(rows: seq<L.Submission>, rowOf: seq<Row>, unqueued: set<Row>, judged: multiset<Job>, x: Job,
                   score: real)
    requires RowsKnown(rows, rowOf, unqueued) && Untouched(rows, rowOf, judged) && x < |rowOf| && judged[x] > 0
    ensures rowOf[x] < |rows|
    ensures var more := rows[rowOf[x] := rows[rowOf[x]].(score := score)];
      RowsKnown(more, rowOf, unqueued) && Untouched(more, rowOf, judged)
  {
  }

  lemma CurrentUpdated(rows: seq<L.Submission>, rowOf: seq<Row>, sys: Sys.State, own: map<(nat, nat), seq<real>>,
                       k: nat, i: nat, score: real)
    requires Sys.Inv(sys) && Current(rows, rowOf, sys, own) && Judges(sys, k, i) && JobOf(sys, k, i) < |rowOf|
    requires forall a, b :: 0 <= a < b < |rowOf| ==> rowOf[a] != rowOf[b]
    requires Lifecycle(OwnOf(own, k, i) + [score])
    ensures var row := rowOf[JobOf(sys, k, i)];
      && row < |rows| && Open(rows[row].score) && score != 0.0
      && Current(rows[row := rows[row].(score := score)], rowOf, sys, own[(k, i) := OwnOf(own, k, i) + [score]])
  {
    hide Sys.Inv;
    var x, mine := JobOf(sys, k, i), OwnOf(own, k, i);
    assert Holds(rows, rowOf, x, mine);
    NextOpen(mine, score);
    hide Lifecycle;
    var row := rowOf[x];
    var more, own' := rows[row := rows[row].(score := score)], own[(k, i) := mine + [score]];
    forall l: nat, j: nat | Judges(sys, l, j) ensures Holds(more, rowOf, JobOf(sys, l, j), OwnOf(own', l, j)) {
      OneJudge(sys, k, i, l, j);
      assert Holds(rows, rowOf, JobOf(sys, l, j), OwnOf(own, l, j));
    }
  }

  lemma NextOpen(own: seq<real>, score: real)
    requires Lifecycle(own) && Lifecycle(own + [score])
    ensures Open(own[|own| - 1]) && score != 0.0
  {
    var all := own + [score];
    assert Open(all[|own| - 1]) && all[|own|] == score;
  }

  /** The row a goroutine writes to, unguarded, still holds what it wrote last, which is open. */
  lemma UpdateKeepsInv(s: State, k: nat, i: nat, score: real)
    requires Inv(s) && Judges(s.sys, k, i) && JobOf(s.sys, k, i) < |s.rowOf| && Lifecycle(Own(s, k, i) + [score])
    ensures Inv(Apply(s, Update(k, i, score)))
  {
    hide Sys.Inv, Sys.Judged, LT.Exec, LT.Orderly, Untouched, Current, Lifecycle;
    var x, rows := JobOf(s.sys, k, i), s.Table().submissions;
    var w := LT.Store(s.rowOf[x], score);
    JudgedSome(s.sys, k, i);
    CurrentUpdated(rows, s.rowOf, s.sys, s.own, k, i, score);
    RowUpdated(rows, s.rowOf, s.unqueued, Sys.Judged(s.sys), x, score);
    hide RowsKnown;
    LT.ExecOne(s.start, s.writes, w);
    LT.OrderlyStep(s.start, s.writes, w);
  }

  lemma JudgedSome(s: Sys.State, k: nat, i: nat)
    requires Judges(s, k, i)
    ensures Sys.Judged(s)[JobOf(s, k, i)] > 0
  {
    JudgesIsHeld(s, k, i);
    hide Sys.Judged, Sys.Judging;
    assert multiset{JobOf(s, k, i)}[JobOf(s, k, i)] <= Sys.Judged(s)[JobOf(s, k, i)];
  }

  // ------------------------------------------------- every run

  lemma StepKeepsInv(s: State, a: Act)
    requires Inv(s)
    ensures Inv(Apply(s, a))
    ensures Apply(s, a).start == s.start && s.writes <= Apply(s, a).writes
  {
    hide Inv;
    match a
    case Run(x) => if x != Sys.Schedule(S.Submit) { RunKeepsInv(s, x); }
    case NewRow(rel, createdAt) => NewRowKeepsInv(s, rel, createdAt);
    case Queue(row) => if row in s.unqueued && !s.sys.sched.panicked { QueueKeepsInv(s, row); }
    case GiveUp(row) => if row in s.unqueued { GiveUpKeepsInv(s, row); }
    case Update(k, i, score) =>
      if Judges(s.sys, k, i) && JobOf(s.sys, k, i) < |s.rowOf| && Lifecycle(Own(s, k, i) + [score]) {
        UpdateKeepsInv(s, k, i, score);
      }
  }

  lemma InitInv(start: L.Database)
    ensures Inv(Init(start))
  {
    Sys.EveryScheduleKeepsInv([]);
    hide Sys.Inv, Sys.Judged;
  }

  lemma {:induction false} ExecKeepsInv(start: L.Database, acts: seq<Act>)
    ensures var s := Exec(Init(start), acts); Inv(s) && s.start == start
  {
    hide Inv, Apply;
    if acts == [] {
      InitInv(start);
    } else {
      ExecKeepsInv(start, acts[..|acts| - 1]);
      StepKeepsInv(Exec(Init(start), acts[..|acts| - 1]), acts[|acts| - 1]);
    }
  }

  /** In every run of the whole back end each row's scores form one judging's: every write replaces a score that is
      still open, although no write looks. */
  lemma EveryRunIsOrderly(start: L.Database, acts: seq<Act>)
    ensures LT.Orderly(start, Exec(Init(start), acts).writes)
  {
    ExecKeepsInv(start, acts);
  }

  lemma {:induction false} WritesExtend(start: L.Database, acts: seq<Act>, more: seq<Act>)
    ensures Exec(Init(start), acts).writes <= Exec(Init(start), acts + more).writes
  {
    hide Apply;
    if more == [] {
      assert acts + more == acts;
    } else {
      var n := |more| - 1;
      WritesExtend(start, acts, more[..n]);
      assert (acts + more)[..|acts + more| - 1] == acts + more[..n];
      ExecKeepsInv(start, acts + more[..n]);
      StepKeepsInv(Exec(Init(start), acts + more[..n]), more[n]);
    }
  }

  lemma Later(start: L.Database, acts: seq<Act>, more: seq<Act>) returns (rest: seq<LT.Write>)
    ensures Exec(Init(start), acts + more).writes == Exec(Init(start), acts).writes + rest
    ensures LT.Orderly(start, Exec(Init(start), acts).writes + rest)
    ensures Exec(Init(start), acts).start == start == Exec(Init(start), acts + more).start
  {
    hide Apply, Inv, LT.Orderly;
    WritesExtend(start, acts, more);
    EveryRunIsOrderly(start, acts + more);
    ExecKeepsInv(start, acts);
    ExecKeepsInv(start, acts + more);
    rest := Exec(Init(start), acts + more).writes[|Exec(Init(start), acts).writes|..];
  }

  /** With questions, links and users fixed, no user's leaderboard total falls from any moment of any run to any
      later moment, and no user leaves the list. */
  lemma NoTotalEverFalls(start: L.Database, acts: seq<Act>, more: seq<Act>, questions: set<L.Id>,
                         before: seq<L.Best>, after: seq<L.Best>, user: L.Id)
    requires L.IsGroupMax(L.Rows(Exec(Init(start), acts).Table(), questions), before)
    requires L.IsGroupMax(L.Rows(Exec(Init(start), acts + more).Table(), questions), after)
    ensures L.TotalOf(before, user) <= L.TotalOf(after, user)
    ensures user in LT.Users(before) ==> user in LT.Users(after)
  {
    hide L.IsGroupMax, L.Rows, LT.Exec, LT.Orderly, Exec;
    var rest := Later(start, acts, more);
    LT.TotalsNeverFallBetween(start, Exec(Init(start), acts).writes, rest, questions, before, after, user);
  }

  /** A row with a final score keeps it in every later state. */
  lemma FinalScoresStay(start: L.Database, acts: seq<Act>, more: seq<Act>, row: Row)
    requires row < |Exec(Init(start), acts).Table().submissions|
    requires !Open(Exec(Init(start), acts).Table().submissions[row].score)
    ensures row < |Exec(Init(start), acts + more).Table().submissions|
    ensures Exec(Init(start), acts + more).Table().submissions[row].score ==
            Exec(Init(start), acts).Table().submissions[row].score
  {
    hide LT.Exec, LT.Orderly, Exec, Open;
    var rest := Later(start, acts, more);
    LT.FinalScoreStays(start, Exec(Init(start), acts).writes, rest, row);
  }

  /** A leaderboard request in the middle of any run, its totals and details read at different moments: no listed
      total exceeds the sum of the scores shown. */
  lemma ListedNeverExceedsShown(start: L.Database, acts: seq<Act>, more: seq<Act>, questions: set<L.Id>,
                                a: LT.Answers, t: LT.UserTotal)
    requires LT.ListAnswered(Exec(Init(start), acts).Table(), questions, a) && t in a.page
    requires LT.Detailed(Exec(Init(start), acts + more).Table(), questions, a)
    ensures t.total <= L.TotalOf(a.details, t.user)
  {
    hide LT.ListAnswered, LT.Detailed, LT.Exec, LT.Orderly, Exec;
    var rest := Later(start, acts, more);
    LT.OrderlyRest(start, Exec(Init(start), acts).writes, rest);
    LR.TotalsBehind(Exec(Init(start), acts).Table(), rest, questions, a, t);
  }
}
