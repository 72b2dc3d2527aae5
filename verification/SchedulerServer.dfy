/** The dispatcher's methods as written, run without messages in between. */
module SchedulerServer {
  import opened Folds
  import opened Scheduler
  import opened SchedulerInvariant
  import opened Greedy

  lemma LoadAfterChoose(s: State, i: Ref)
    requires s.disp.Held? && Best(s, i)
    ensures i < |Load(s)| && Load(s)[i] > 0 && Load(s)[i] == Largest(Load(s))
    ensures Load(ApplyDispatch(s, Choose(i))) == Load(s)[i := Load(s)[i] - 1]
  {
    var t := ApplyDispatch(s, Choose(i));
    forall j | 0 <= j < |s.insts| ensures Load(t)[j] == Load(s)[i := Load(s)[i] - 1][j] {
      assert Registered(t, j) == Registered(s, j);
    }
  }

  lemma SameLoad(s: State, t: State)
    requires |t.insts| == |s.insts| && t.registered == s.registered
    requires forall i :: 0 <= i < |s.insts| ==>
      t.insts[i].sid == s.insts[i].sid && t.insts[i].active == s.insts[i].active &&
        t.insts[i].status == s.insts[i].status
    ensures Load(t) == Load(s)
  {
    forall j | 0 <= j < |s.insts| ensures Load(t)[j] == Load(s)[j] {
      assert Registered(t, j) == Registered(s, j);
    }
  }

  lemma {:induction false} NothingLeft(a: seq<nat>)
    requires forall i :: 0 <= i < |a| ==> a[i] == 0
    ensures Sum(a) == 0
  {
    if a != [] { NothingLeft(a[..|a| - 1]); }
  }

  /** The free boxes the registered, active sandboxes with a status report, added up instance by instance. */
  function FreeBoxes(insts: seq<Instance>, registered: map<Sid, Ref>): nat {
    if insts == [] then 0 else
    var n := |insts| - 1;
    var inst := insts[n];
    FreeBoxes(insts[..n], registered) +
    if inst.sid in registered && registered[inst.sid] == n && inst.active && inst.status.Some?
       && inst.status.value.available > 0
    then inst.status.value.available else 0
  }

  lemma {:induction false} LoadFront(s: State, n: nat)
    requires n <= |s.insts|
    ensures Sum(Load(s)[..n]) == FreeBoxes(s.insts[..n], s.registered)
  {
    if n > 0 {
      LoadFront(s, n - 1);
      assert Load(s)[..n][..n - 1] == Load(s)[..n - 1];
      assert s.insts[..n][..n - 1] == s.insts[..n - 1];
    }
  }

  lemma LoadIsFree(s: State)
    ensures Sum(Load(s)) == FreeBoxes(s.insts, s.registered)
  {
    LoadFront(s, |s.insts|);
    assert Load(s)[..|s.insts|] == Load(s) && s.insts[..|s.insts|] == s.insts;
  }

  /** Every channel can take all the jobs its instance's counter still invites. */
  ghost predicate Room(s: State) {
    forall i :: 0 <= i < |s.insts| ==> |s.insts[i].buffer| + Load(s)[i] <= CHAN_CAPACITY
  }

  lemma StartGreedy(a: seq<nat>)
    ensures IsGreedy(a, []) && After(a, []) == a
  {
  }

  /** The job went to instance i, one of the fullest, whose counter was lowered. */
  ghost predicate Placed(s: State, t: State, i: Ref, job: Job) {
    && Best(s, i) && t.disp == Draining && t.queue == s.queue && t.registered == s.registered
    && t.insts == s.insts[i := Accept(Reserve1(s.insts[i]), job, false)]
  }

  lemma PlacedBy(s: State, i: Ref, job: Job)
    requires s.disp == Held(job) && Best(s, i) && !s.insts[i].closed && |s.insts[i].buffer| < CHAN_CAPACITY
    ensures Placed(s, ApplyDispatch(ApplyDispatch(s, Choose(i)), Push), i, job)
  {
  }

  /** Without a message in between, a rollback undoes the decrement. */
  lemma RollBackUndoes(s: State, i: Ref, job: Job)
    requires s.disp == Held(job) && Best(s, i) && !s.insts[i].closed && |s.insts[i].buffer| >= CHAN_CAPACITY
    ensures ApplyDispatch(ApplyDispatch(ApplyDispatch(s, Choose(i)), Push), RollBack) == s.(disp := Failed(job))
  {
    assert s.insts[i := Reserve1(s.insts[i])][i := s.insts[i]] == s.insts;
  }

  /** What a pass sees of a placement. */
  ghost predicate Picked(s: State, t: State, i: Ref) {
    IsGreedy(Load(s), [i]) && Load(t) == After(Load(s), [i]) && (Room(s) ==> Room(t))
  }

  lemma PickedBy(s: State, h: State, t: State, i: Ref, job: Job)
    requires Load(h) == Load(s) && (Room(s) ==> Room(h)) && h.disp.Held? && Placed(h, t, i, job)
    ensures Picked(s, t, i) && t.disp == Draining && t.queue == h.queue
  {
    LoadAfterChoose(h, i);
    SameLoad(ApplyDispatch(h, Choose(i)), t);
    assert [i][..0] == [];
  }

  lemma SameRoom(s: State, t: State)
    requires t.insts == s.insts && Load(t) == Load(s)
    ensures Room(s) <==> Room(t)
  {
  }

  /** With room everywhere, a failed assignment means that nothing is left to assign. */
  lemma FailedWithRoom(s: State)
    requires Room(s)
    requires || (forall i :: 0 <= i < |s.insts| ==> !Candidate(s, i))
             || (exists i: nat :: Best(s, i) && |s.insts[i].buffer| >= CHAN_CAPACITY)
    ensures Sum(Load(s)) == 0
  {
    NothingLeft(Load(s));
  }

  // ------------------------------------------------- the sweep's loop

  /** Every registered instance has been looked at but those whose ids are still to come. */
  ghost predicate Swept(b: State, insts: seq<Instance>, registered: map<Sid, Ref>, ids: set<Sid>) {
    && |insts| == |b.insts|
    && (forall j :: 0 <= j < |insts| ==>
          insts[j] == if Registered(b, j) && b.insts[j].sid !in ids then Age(b.insts[j], b.clock) else b.insts[j])
    && registered == map sid | sid in b.registered && (sid in ids || !Expired(b, sid)) :: b.registered[sid]
  }

  lemma SweptOne(b: State, insts: seq<Instance>, registered: map<Sid, Ref>, ids: set<Sid>, id: Sid)
    requires Shape(b) && Swept(b, insts, registered, ids) && id in ids && ids <= b.registered.Keys
    ensures id in registered && registered[id] == b.registered[id] < |insts|
    ensures var i := registered[id];
      && insts[i] == b.insts[i] && (Expired(b, id) <==> b.clock - insts[i].lastSeen > 300_000)
      && var left := if Expired(b, id) then registered - {id} else registered;
         Swept(b, insts[i := Age(insts[i], b.clock)], left, ids - {id})
  {
    hide InstOk;
    var i := b.registered[id];
    assert Registered(b, i) && b.insts[i].sid == id;
    hide Age, Shape;
  }

  lemma SweptAll(b: State, insts: seq<Instance>, registered: map<Sid, Ref>)
    requires Swept(b, insts, registered, {}) && !ApplyStream(b, Sweep).panicked
    ensures ApplyStream(b, Sweep) == b.(insts := insts, registered := registered)
  {
    hide Age;
  }

  lemma SweptFields(b: State, insts: seq<Instance>, registered: map<Sid, Ref>)
    requires Shape(b) && Swept(b, insts, registered, {})
    ensures forall sid :: sid in b.registered ==> b.registered[sid] < |b.insts| == |insts|
    ensures forall sid :: sid in registered <==>
              sid in b.registered && b.clock - b.insts[b.registered[sid]].lastSeen <= 300_000
    ensures forall sid :: sid in b.registered ==>
      var was, inst := b.insts[b.registered[sid]], insts[b.registered[sid]];
      && inst.active == (was.active && b.clock - was.lastSeen <= 60_000)
      && inst.closed == (was.closed || b.clock - was.lastSeen > 300_000)
  {
    hide InstOk;
    forall sid | sid in b.registered ensures Registered(b, b.registered[sid]) {
      assert b.insts[b.registered[sid]].sid == sid;
    }
  }

  class SandboxScheduler {
    var insts: seq<Instance>           // the instances allocated so far
    var instances: map<Sid, Ref>
    var jobQueue: seq<Job>

    ghost var disp: Dispatcher
    ghost var submitted: nat
    ghost var streams: seq<Stream>
    ghost var sent: multiset<Job>
    ghost var dropped: multiset<Job>
    ghost var clock: int
    ghost var history: seq<Act>

    ghost function View(): State
      reads this
    {
      State(jobQueue, submitted, insts, instances, streams, disp, sent, dropped, clock, false)
    }

    ghost predicate Valid()
      reads this
    {
      View() == Exec(Init(), history)
    }

    constructor ()
      ensures Valid() && View() == Init() && history == []
    {
      insts, instances, jobQueue := [], map[], [];
      disp, submitted, streams, sent, dropped, clock, history := Asleep, 0, [], multiset{}, multiset{}, 0, [];
    }

    lemma Good()
      requires Valid()
      ensures Inv(View())
    {
      EveryScheduleKeepsInv(history);
    }

    lemma RegisteredAreOpen()
      requires Valid()
      ensures forall i :: 0 <= i < |insts| && Registered(View(), i) ==> !insts[i].closed
      ensures forall sid :: sid in instances ==> instances[sid] < |insts| && insts[instances[sid]].sid == sid
    {
      Good();
      hide Counters, JobsOnce, InstOk;
    }

    ghost method Record(before: State, a: Act)
      requires before == Exec(Init(), history) && View() == Apply(before, a)
      modifies this`history
      ensures Valid() && history == old(history) + [a]
    {
      assert (history + [a])[..|history|] == history;
      history := history + [a];
    }

    // ------------------------------------------------- submissions, streams and the sweep

    /** The request goes to the end of the global queue. */
    method ReserveJob(job: Job)
      requires Valid() && job == submitted
      modifies this`jobQueue, this`submitted, this`history
      ensures Valid() && history == old(history) + [Submit]
      ensures jobQueue == old(jobQueue) + [job] && submitted == old(submitted) + 1
    {
      ghost var before := View();
      jobQueue := jobQueue + [job];
      submitted := submitted + 1;
      Record(before, Submit);
    }

    /** A Connect message on stream k: a new instance, active, without a status, under its id. */
    method HandleConnect(ghost k: nat, sid: Sid, now: int) returns (instance: Ref)
      requires Valid() && now == clock && k < |streams| && (streams[k].Opened? || streams[k].Connected?)
      modifies this`insts, this`instances, this`streams, this`history
      ensures Valid() && history == old(history) + [Connect(k, sid)] && instance == |old(insts)|
      ensures insts == old(insts) + [Instance(sid, true, None, now, [], false, NotStarted, None, false, 0)]
      ensures instances == old(instances)[sid := instance] && streams == old(streams)[k := Connecting(instance)]
    {
      hide ApplyDispatch, ApplySend;
      ghost var before := View();
      instance := |insts|;
      insts := insts + [Instance(sid, true, None, now, [], false, NotStarted, None, false, 0)];
      instances := instances[sid := instance];
      streams := streams[k := Connecting(instance)];
      Record(before, Connect(k, sid));
    }

    /** A status message replaces the instance's status and refreshes LastSeen. */
    method HandleStatus(ghost k: nat, i: Ref, st: Status, now: int)
      requires Valid() && now == clock && k < |streams| && streams[k] == Connected(i) && i < |insts|
      requires st.available >= 0 && st.waiting >= 0
      modifies this`insts, this`disp, this`history
      ensures Valid() && history == old(history) + [StatusArrives(k, st)] && |insts| == |old(insts)|
      ensures insts[i].status == insts[i].reported == Some(st) && insts[i].lastSeen == now
      ensures insts[i].active == old(insts)[i].active && insts[i].buffer == old(insts)[i].buffer
      ensures forall j :: 0 <= j < |insts| && j != i ==> insts[j] == old(insts)[j]
    {
      hide ApplyDispatch, ApplySend;
      ghost var before := View();
      var inst := insts[i].(reported := Some(st), straddled := false, pushed := 0);
      insts := insts[i := inst.(status := Some(st), lastSeen := now)];
      disp := MarkStale(disp, i);
      Record(before, StatusArrives(k, st));
    }

    /** The deferred end of a stream whose channel nobody else has closed: out by id, whoever has that id now. */
    method StreamEnds(ghost k: nat, i: Ref, sid: Sid)
      requires Valid() && k < |streams| && Joined(streams[k]) && streams[k].inst == i
      requires i < |insts| && insts[i].sid == sid && !insts[i].closed
      modifies this`insts, this`instances, this`streams, this`history
      ensures Valid() && history == old(history) + [Disconnect(k)]
      ensures insts == old(insts)[i := old(insts)[i].(active := false, closed := true)]
      ensures instances == old(instances) - {sid} && streams == old(streams)[k := Closed]
    {
      hide ApplyDispatch, ApplySend;
      ghost var before := View();
      insts := insts[i := insts[i].(active := false, closed := true)];
      instances := instances - {sid};
      streams := streams[k := Closed];
      Record(before, Disconnect(k));
    }

    /** One round of the sweep: silent for more than a minute, inactive; for more than five, closed and removed. */
    method CleanupInactiveInstances(now: int)
      requires Valid() && now == clock
      modifies this`insts, this`instances, this`history
      ensures Valid() && history == old(history) + [Sweep] && |insts| == |old(insts)|
      ensures forall sid :: sid in old(instances) ==> old(instances)[sid] < |old(insts)|
      ensures forall sid :: sid in instances <==>
                sid in old(instances) && now - old(insts)[old(instances)[sid]].lastSeen <= 300_000
      ensures forall sid :: sid in old(instances) ==>
        var was, inst := old(insts)[old(instances)[sid]], insts[old(instances)[sid]];
        && inst.active == (was.active && now - was.lastSeen <= 60_000)
        && inst.closed == (was.closed || now - was.lastSeen > 300_000)
    {
      hide Valid, Swept, Expired, Shape;
      SweepReady();
      ghost var before := View();
      var ids := instances.Keys;
      while ids != {}
        invariant ids <= before.registered.Keys && Swept(before, insts, instances, ids)
        invariant View() == before.(insts := insts, registered := instances) && history == old(history)
        decreases ids
      {
        var id :| id in ids;
        SweptOne(before, insts, instances, ids, id);
        ids := ids - {id};
        SweepOne(id, now);
      }
      SweptAll(before, insts, instances);
      SweptFields(before, insts, instances);
      RecordSweep(before);
    }

    /** The loop's body, for one id. */
    method SweepOne(id: Sid, now: int)
      requires id in instances && instances[id] < |insts|
      modifies this`insts, this`instances
      ensures var i, was := old(instances)[id], old(insts)[old(instances)[id]];
        && insts == old(insts)[i := Age(was, now)]
        && instances == if now - was.lastSeen > 300_000 then old(instances) - {id} else old(instances)
    {
      var i := instances[id];
      var silent := now - insts[i].lastSeen;
      if silent > INACTIVE_AFTER {
        insts := insts[i := insts[i].(active := false)];
        if silent > REMOVED_AFTER {
          insts := insts[i := insts[i].(closed := true)];
          instances := instances - {id};
        }
      }
      assert insts == old(insts)[i := Age(old(insts)[i], now)];
    }

    ghost method RecordSweep(before: State)
      requires before == Exec(Init(), history) && View() == ApplyStream(before, Sweep) && !before.panicked
      modifies this`history
      ensures Valid() && history == old(history) + [Sweep]
    {
      Record(before, Sweep);
    }

    lemma SweepReady()
      requires Valid()
      ensures !ApplyStream(View(), Sweep).panicked && Shape(View()) && View() == Exec(Init(), history)
      ensures Swept(View(), insts, instances, instances.Keys)
    {
      Good();
      SweepIsSafe(View(), Sweep);
    }

    // ------------------------------------------------- the dispatcher

    method Candidates() returns (candidates: seq<Ref>)
      requires Valid()
      ensures forall j :: 0 <= j < |candidates| ==> candidates[j] < |insts| && Candidate(View(), candidates[j])
      ensures forall i: Ref :: i < |insts| && Candidate(View(), i) ==> i in candidates
    {
      RegisteredAreOpen();
      candidates := [];
      var ids := instances.Keys;
      while ids != {}
        invariant ids <= instances.Keys
        invariant forall j :: 0 <= j < |candidates| ==> candidates[j] < |insts| && Candidate(View(), candidates[j])
        invariant forall i: Ref :: i < |insts| && Candidate(View(), i) ==> i in candidates || insts[i].sid in ids
        decreases ids
      {
        var id :| id in ids;
        ids := ids - {id};
        var instance := insts[instances[id]];
        if instance.active && instance.status.Some? && instance.status.value.available > 0 {
          candidates := candidates + [instances[id]];
        }
      }
    }

    /** The first of the candidates sorted by falling AvailableCount. */
    method Fullest(candidates: seq<Ref>) returns (first: Ref)
      requires Valid() && candidates != []
      requires forall j :: 0 <= j < |candidates| ==> candidates[j] < |insts| && Candidate(View(), candidates[j])
      ensures first in candidates && first < |insts| && Candidate(View(), first)
      ensures forall j :: 0 <= j < |candidates| ==>
        && candidates[j] < |insts| && Candidate(View(), candidates[j])
        && insts[candidates[j]].status.value.available <= insts[first].status.value.available
    {
      first := candidates[0];
      for k := 1 to |candidates|
        invariant first in candidates && first < |insts| && Candidate(View(), first)
        invariant forall j :: 0 <= j < k ==>
          insts[candidates[j]].status.value.available <= insts[first].status.value.available
      {
        if insts[candidates[k]].status.value.available > insts[first].status.value.available {
          first := candidates[k];
        }
      }
    }

    /** An eligible instance with the largest AvailableCount, or nothing when none is eligible; eligible are exactly the
        registered instances that are active, have a status and report free boxes. */
    method GetBestSandbox() returns (best: Option<Ref>)
      requires Valid()
      ensures best.Some? ==> Best(View(), best.value)
      ensures best.None? ==> forall i :: 0 <= i < |insts| ==> !Candidate(View(), i)
      ensures forall sid :: sid in instances ==> instances[sid] < |insts|
      ensures best.Some? ==>
        && best.value < |insts| && (exists sid :: sid in instances && instances[sid] == best.value)
        && insts[best.value].active && insts[best.value].status.Some? && insts[best.value].status.value.available > 0
      ensures forall sid :: sid in instances ==>
        var inst := insts[instances[sid]];
        inst.active && inst.status.Some? && inst.status.value.available > 0 ==>
          best.Some? && inst.status.value.available <= insts[best.value].status.value.available
    {
      var candidates := Candidates();
      if candidates == [] {
        best := None;
      } else {
        var first := Fullest(candidates);
        best := Some(first);
      }
      OnTheFields(best);
    }

    lemma OnTheFields(best: Option<Ref>)
      requires Valid()
      requires best.Some? ==> Best(View(), best.value)
      requires best.None? ==> forall i :: 0 <= i < |insts| ==> !Candidate(View(), i)
      ensures forall sid :: sid in instances ==> instances[sid] < |insts|
      ensures best.Some? ==>
        && best.value < |insts| && (exists sid :: sid in instances && instances[sid] == best.value)
        && insts[best.value].active && insts[best.value].status.Some? && insts[best.value].status.value.available > 0
      ensures forall sid :: sid in instances ==>
        var inst := insts[instances[sid]];
        inst.active && inst.status.Some? && inst.status.value.available > 0 ==>
          best.Some? && inst.status.value.available <= insts[best.value].status.value.available
    {
      RegisteredAreOpen();
      hide Valid;
      if best.Some? {
        assert insts[best.value].sid in instances;
      }
      forall sid | sid in instances && insts[instances[sid]].active && insts[instances[sid]].status.Some?
        && insts[instances[sid]].status.value.available > 0
        ensures Candidate(View(), instances[sid])
      {
        assert Registered(View(), instances[sid]);
      }
    }

    /** The mutex-held block that lowers the chosen instance's counter. */
    method LowerCounter(ghost job: Job, i: Ref)
      requires Valid() && disp == Held(job) && Best(View(), i)
      modifies this
      ensures Valid() && history == old(history) + [Choose(i)]
      ensures View() == ApplyDispatch(old(View()), Choose(i))
    {
      ghost var before := View();
      insts := insts[i := Reserve1(insts[i])];
      disp := Chosen(job, i, false);
      Record(before, Choose(i));
    }

    /** The non-blocking send. */
    method TrySend(job: Job, i: Ref) returns (ok: bool)
      requires Valid() && disp == Chosen(job, i, false) && i < |insts| && !insts[i].closed
      modifies this
      ensures Valid() && history == old(history) + [Push]
      ensures View() == ApplyDispatch(old(View()), Push)
      ensures ok == (|old(insts)[i].buffer| < CHAN_CAPACITY)
    {
      ghost var before := View();
      ok := |insts[i].buffer| < CHAN_CAPACITY;
      if ok {
        insts := insts[i := Accept(insts[i], job, false)];
        disp := Draining;
      } else {
        disp := RollingBack(job, i, false);
      }
      Record(before, Push);
    }

    method RestoreCounter(ghost job: Job, i: Ref)
      requires Valid() && disp == RollingBack(job, i, false) && i < |insts|
      modifies this
      ensures Valid() && history == old(history) + [RollBack]
      ensures View() == ApplyDispatch(old(View()), RollBack)
    {
      ghost var before := View();
      insts := insts[i := Unreserve1(insts[i], false)];
      disp := Failed(job);
      Record(before, RollBack);
    }

    /** On success the job went to a fullest instance, whose counter fell by one; on failure nothing
        is different, and either no instance is eligible or a fullest one's channel is full. */
    method AssignJobToSandbox(job: Job) returns (ok: bool, ghost pick: Ref)
      requires Valid() && disp == Held(job)
      modifies this
      ensures Valid() && old(history) <= history
      ensures ok ==> Placed(old(View()), View(), pick, job)
      ensures !ok ==> View() == old(View()).(disp := Failed(job))
      ensures !ok ==>
        (forall i :: 0 <= i < |insts| ==> !Candidate(old(View()), i)) ||
        (exists i: nat :: Best(old(View()), i) && |old(insts)[i].buffer| >= CHAN_CAPACITY)
    {
      hide Valid, Candidate, Placed;
      var best := GetBestSandbox();
      ghost var before := View();
      if best.None? {
        GiveUp(job);
        return false, 0;
      }
      var i := best.value;
      pick := i;
      OpenWhenBest(i);
      LowerCounter(job, i);
      ok := TrySend(job, i);
      if ok {
        PlacedBy(before, i, job);
      } else {
        RestoreCounter(job, i);
        RollBackUndoes(before, i, job);
      }
    }

    lemma OpenWhenBest(i: Ref)
      requires Valid() && Best(View(), i)
      ensures i < |insts| && !insts[i].closed
    {
      RegisteredAreOpen();
    }

    method GiveUp(job: Job)
      requires Valid() && disp == Held(job) && forall i :: 0 <= i < |insts| ==> !Candidate(View(), i)
      modifies this`disp, this`history
      ensures Valid() && history == old(history) + [NoCandidate] && disp == Failed(job)
    {
      ghost var before := View();
      disp := Failed(job);
      Record(before, NoCandidate);
    }

    method WakeUp()
      requires Valid() && disp == Asleep
      modifies this`disp, this`history
      ensures Valid() && history == old(history) + [Wake] && disp == Draining
    {
      ghost var before := View();
      disp := Draining;
      Record(before, Wake);
    }

    method Dequeue() returns (job: Option<Job>)
      requires Valid() && disp == Draining
      modifies this`jobQueue, this`disp, this`history
      ensures Valid() && history == old(history) + [TakeJob]
      ensures job.None? ==> old(jobQueue) == [] == jobQueue && disp == Asleep
      ensures job.Some? ==> old(jobQueue) == [job.value] + jobQueue && disp == Held(job.value)
    {
      ghost var before := View();
      if jobQueue == [] {
        job := None;
        disp := Asleep;
      } else {
        job := Some(jobQueue[0]);
        jobQueue := jobQueue[1..];
        disp := Held(job.value);
      }
      Record(before, TakeJob);
    }

    method Enqueue(job: Job)
      requires Valid() && disp == Failed(job)
      modifies this`jobQueue, this`disp, this`history
      ensures Valid() && history == old(history) + [PutBack]
      ensures jobQueue == old(jobQueue) + [job] && disp == Asleep
    {
      ghost var before := View();
      jobQueue := jobQueue + [job];
      disp := Asleep;
      Record(before, PutBack);
    }

    /** One round of the inner loop; true when it goes on. */
    method Attempt() returns (ok: bool, ghost pick: Ref)
      requires Valid() && disp == Draining
      modifies this
      ensures Valid() && old(history) <= history
      ensures ok ==> disp == Draining && old(jobQueue) != [] && jobQueue == old(jobQueue)[1..]
      ensures ok ==> Picked(old(View()), View(), pick)
      ensures !ok ==> disp == Asleep && Load(View()) == Load(old(View()))
      ensures !ok ==> jobQueue == if old(jobQueue) == [] then [] else old(jobQueue)[1..] + [old(jobQueue)[0]]
      ensures !ok && old(jobQueue) != [] && Room(old(View())) ==> Sum(Load(View())) == 0
    {
      hide Valid, Candidate, IsGreedy, After, Sum, Room, Picked, Placed;
      ghost var s := View();
      var job := Dequeue();
      SameLoad(s, View());
      if job.None? {
        return false, 0;
      }
      ghost var h := View();
      SameRoom(s, h);
      ok, pick := AssignJobToSandbox(job.value);
      if ok {
        PickedBy(s, h, View(), pick, job.value);
      } else {
        if Room(h) { FailedWithRoom(h); }
        Enqueue(job.value);
        SameLoad(h, View());
      }
    }

    /** One pass of processJobQueue: it assigns the first jobs of the queue greedily, puts at most one
        job it could not assign back at the end, and with enough room in the channels assigns as many
        jobs as there are jobs and free boxes. */
    method ProcessJobQueue() returns (count: nat, ghost picks: seq<Ref>)
      requires Valid() && disp == Asleep
      modifies this
      ensures Valid() && old(history) <= history && disp == Asleep
      ensures count == |picks| <= |old(jobQueue)|
      ensures IsGreedy(Load(old(View())), picks) && Load(View()) == After(Load(old(View())), picks)
      ensures jobQueue == if count == |old(jobQueue)| then []
                          else old(jobQueue)[count + 1..] + [old(jobQueue)[count]]
      ensures Room(old(View())) ==>
        var free := FreeBoxes(old(insts), old(instances));
        count == if |old(jobQueue)| < free then |old(jobQueue)| else free
    {
      hide Valid, Candidate, IsGreedy, After, Sum, Room, Load;
      ghost var s0, load0 := View(), Load(View());
      WakeUp();
      SameLoad(s0, View());
      SameRoom(s0, View());
      StartGreedy(load0);
      count, picks := 0, [];
      var ok := true;
      while ok
        invariant Valid() && old(history) <= history
        invariant count == |picks| <= |s0.queue|
        invariant IsGreedy(load0, picks) && Load(View()) == After(load0, picks)
        invariant ok ==> disp == Draining && jobQueue == s0.queue[count..] && (Room(s0) ==> Room(View()))
        invariant !ok ==> disp == Asleep
        invariant !ok ==> jobQueue == if count == |s0.queue| then [] else s0.queue[count + 1..] + [s0.queue[count]]
        invariant !ok && count < |s0.queue| && Room(s0) ==> Sum(Load(View())) == 0
        decreases if ok then |jobQueue| + 1 else 0
      {
        ghost var pick;
        ok, pick := Attempt();
        if ok {
          GreedyExtends(load0, picks, pick);
          count, picks := count + 1, picks + [pick];
        }
      }
      Balanced(load0, picks);
      LoadIsFree(s0);
    }
  }
}
