/** The job scheduler of services/sandbox_scheduler.go as a step machine.

    A mutex-held block, a channel operation, a queue operation, the arrival of a message and the
    outcome of a Send are one action each; a schedule is any list of actions, and an action that
    cannot run leaves the state alone. Sandbox instances are values in a table and everybody who
    holds a pointer to one holds its index, so that the map of registered instances, the stream
    handlers, the senders and the dispatcher share them as they do in the program. */
module Scheduler {
  import opened Folds

  type Job = nat
  type Sid = nat   // sandbox id
  type Ref = nat   // pointer to an instance

  const CHAN_CAPACITY := 100
  const INACTIVE_AFTER := 60_000   // milliseconds without a status
  const REMOVED_AFTER := 300_000

  datatype Status = Status(available: int, waiting: int, processing: int, total: int)

  /** sendJobsToSandbox of one instance. */
  datatype Sender = NotStarted | Ready | Holding(job: Job) | Broken | Ended

  datatype Instance = Instance(
    sid: Sid, active: bool, status: Option<Status>, lastSeen: int,
    buffer: seq<Job>, closed: bool, sender: Sender,
    reported: Option<Status>,  // the last status message, as it arrived
    straddled: bool,           // a decrement older than that message was rolled back after it
    pushed: nat)               // jobs pushed since that message whose decrement is not older

  datatype Stream = Opened | Connecting(inst: Ref) | Connected(inst: Ref) | Closed

  /** processJobQueue; `stale` tells that a status arrived after the decrement. */
  datatype Dispatcher =
    | Asleep
    | Draining
    | Held(job: Job)
    | Chosen(job: Job, inst: Ref, stale: bool)
    | RollingBack(job: Job, inst: Ref, stale: bool)
    | Failed(job: Job)

  datatype State = State(
    queue: seq<Job>, submitted: nat, insts: seq<Instance>, registered: map<Sid, Ref>,
    streams: seq<Stream>, disp: Dispatcher, sent: multiset<Job>, dropped: multiset<Job>,
    clock: int, panicked: bool)

  function Init(): State { State([], 0, [], map[], [], Asleep, multiset{}, multiset{}, 0, false) }

  datatype Act =
    | Submit
    | Wake | TakeJob | NoCandidate | Choose(i: Ref) | Push | RollBack | PutBack
    | Open | Connect(k: nat, sid: Sid) | ConnectOk(k: nat) | StatusArrives(k: nat, st: Status) | Disconnect(k: nat)
    | SendTake(i: Ref) | SendOk(i: Ref) | SendFail(i: Ref) | SendEnd(i: Ref)
    | Sweep | Elapse(ms: nat) | CloseAll

  // ------------------------------------------------- choosing an instance

  predicate Registered(s: State, i: Ref) {
    i < |s.insts| && s.insts[i].sid in s.registered && s.registered[s.insts[i].sid] == i
  }

  predicate Candidate(s: State, i: Ref) {
    Registered(s, i) && s.insts[i].active && s.insts[i].status.Some? && s.insts[i].status.value.available > 0
  }

  /** What each instance still offers: 0 when it is not a candidate. */
  function Load(s: State): (a: seq<nat>)
    ensures |a| == |s.insts|
    ensures forall i :: 0 <= i < |a| ==> a[i] == if Candidate(s, i) then s.insts[i].status.value.available else 0
  {
    seq(|s.insts|, i requires 0 <= i < |s.insts| => if Candidate(s, i) then s.insts[i].status.value.available else 0)
  }

  /** An instance GetBestSandbox may return: the sort is not stable and map order is arbitrary. */
  predicate Best(s: State, i: Ref) {
    Candidate(s, i) &&
    forall j :: 0 <= j < |s.insts| && Candidate(s, j) ==>
      s.insts[j].status.value.available <= s.insts[i].status.value.available
  }

  // ------------------------------------------------- one instance

  function Reserve1(inst: Instance): Instance
    requires inst.status.Some?
  {
    var st := inst.status.value;
    inst.(status := Some(st.(waiting := st.waiting + 1, available := st.available - 1)))
  }

  function Unreserve1(inst: Instance, stale: bool): Instance {
    if inst.status.None? then inst else
    var st := inst.status.value;
    inst.(status := Some(st.(waiting := st.waiting - 1, available := st.available + 1)),
          straddled := inst.straddled || stale)
  }

  /** The job is in the channel. */
  function Accept(inst: Instance, job: Job, stale: bool): Instance {
    inst.(buffer := inst.buffer + [job], pushed := inst.pushed + if stale then 0 else 1)
  }

  function Report(inst: Instance, st: Status, now: int): Instance {
    inst.(status := Some(st), reported := Some(st), straddled := false, pushed := 0, lastSeen := now)
  }

  /** cleanupInactiveInstances, for one registered instance. */
  function Age(inst: Instance, now: int): Instance {
    if now - inst.lastSeen > INACTIVE_AFTER then
      inst.(active := false, closed := inst.closed || now - inst.lastSeen > REMOVED_AFTER)
    else inst
  }

  // ------------------------------------------------- the actions

  function SetInst(s: State, i: Ref, inst: Instance): State
    requires i < |s.insts|
  {
    s.(insts := s.insts[i := inst])
  }

  function SetStream(s: State, k: nat, st: Stream): State
    requires k < |s.streams|
  {
    s.(streams := s.streams[k := st])
  }

  function Apply(s: State, a: Act): State {
    if s.panicked then s else
    match a
    case Submit => s.(queue := s.queue + [s.submitted], submitted := s.submitted + 1)
    case Elapse(ms) => s.(clock := s.clock + ms)
    case Wake => ApplyDispatch(s, a)
    case TakeJob => ApplyDispatch(s, a)
    case NoCandidate => ApplyDispatch(s, a)
    case Choose(_) => ApplyDispatch(s, a)
    case Push => ApplyDispatch(s, a)
    case RollBack => ApplyDispatch(s, a)
    case PutBack => ApplyDispatch(s, a)
    case SendTake(_) => ApplySend(s, a)
    case SendOk(_) => ApplySend(s, a)
    case SendFail(_) => ApplySend(s, a)
    case SendEnd(_) => ApplySend(s, a)
    case _ => ApplyStream(s, a)
  }

  function ApplyDispatch(s: State, a: Act): State {
    var d := s.disp;
    match a
    case Wake => if d.Asleep? then s.(disp := Draining) else s
    case TakeJob =>
      if !d.Draining? then s
      else if s.queue == [] then s.(disp := Asleep)
      else s.(disp := Held(s.queue[0]), queue := s.queue[1..])
    case NoCandidate =>
      if d.Held? && (forall i :: 0 <= i < |s.insts| ==> !Candidate(s, i)) then s.(disp := Failed(d.job)) else s
    case Choose(i) =>
      if d.Held? && Best(s, i) then
        SetInst(s, i, Reserve1(s.insts[i])).(disp := Chosen(d.job, i, false))
      else s
    case Push =>
      if !d.Chosen? || d.inst >= |s.insts| then s
      else if s.insts[d.inst].closed then s.(panicked := true)       // send on closed channel
      else if |s.insts[d.inst].buffer| < CHAN_CAPACITY then
        SetInst(s, d.inst, Accept(s.insts[d.inst], d.job, d.stale)).(disp := Draining)
      else s.(disp := RollingBack(d.job, d.inst, d.stale))
    case RollBack =>
      if d.RollingBack? && d.inst < |s.insts| then
        SetInst(s, d.inst, Unreserve1(s.insts[d.inst], d.stale)).(disp := Failed(d.job))
      else s
    case PutBack => if d.Failed? then s.(queue := s.queue + [d.job], disp := Asleep) else s
    case _ => s
  }

  function ApplySend(s: State, a: Act): State {
    match a
    case SendTake(i) =>
      if i < |s.insts| && s.insts[i].sender.Ready? && s.insts[i].buffer != [] then
        SetInst(s, i, s.insts[i].(sender := Holding(s.insts[i].buffer[0]), buffer := s.insts[i].buffer[1..]))
      else s
    case SendOk(i) =>
      if i < |s.insts| && s.insts[i].sender.Holding? then
        SetInst(s, i, s.insts[i].(sender := Ready)).(sent := s.sent + multiset{s.insts[i].sender.job})
      else s
    case SendFail(i) =>
      if i < |s.insts| && s.insts[i].sender.Holding? then
        SetInst(s, i, s.insts[i].(sender := Broken)).(dropped := s.dropped + multiset{s.insts[i].sender.job})
      else s
    case SendEnd(i) =>
      if i < |s.insts| && s.insts[i].sender.Ready? && s.insts[i].buffer == [] && s.insts[i].closed then
        SetInst(s, i, s.insts[i].(sender := Ended))
      else s
    case _ => s
  }

  function MarkStale(d: Dispatcher, i: Ref): Dispatcher {
    match d
    case Chosen(job, inst, _) => if inst == i then Chosen(job, i, true) else d
    case RollingBack(job, inst, _) => if inst == i then RollingBack(job, i, true) else d
    case _ => d
  }

  predicate Expired(s: State, sid: Sid) {
    sid in s.registered && s.registered[sid] < |s.insts|
    && s.clock - s.insts[s.registered[sid]].lastSeen > REMOVED_AFTER
  }

  predicate ClosedAlready(s: State, sid: Sid) {
    sid in s.registered && s.registered[sid] < |s.insts| && s.insts[s.registered[sid]].closed
  }

  function ApplyStream(s: State, a: Act): State {
    match a
    case Open => s.(streams := s.streams + [Opened])
    case Connect(k, sid) =>
      if k < |s.streams| && (s.streams[k].Opened? || s.streams[k].Connected?) then
        var inst := Instance(sid, true, None, s.clock, [], false, NotStarted, None, false, 0);
        SetStream(s, k, Connecting(|s.insts|)).(insts := s.insts + [inst], registered := s.registered[sid := |s.insts|])
      else s
    case ConnectOk(k) =>
      if k < |s.streams| && s.streams[k].Connecting? && s.streams[k].inst < |s.insts| then
        var i := s.streams[k].inst;
        SetInst(SetStream(s, k, Connected(i)), i, s.insts[i].(sender := Ready))
      else s
    case StatusArrives(k, st) =>
      if k < |s.streams| && s.streams[k].Connected? && s.streams[k].inst < |s.insts|
         && st.available >= 0 && st.waiting >= 0 then
        var i := s.streams[k].inst;
        SetInst(s, i, Report(s.insts[i], st, s.clock)).(disp := MarkStale(s.disp, i))
      else s
    case Disconnect(k) =>
      if k >= |s.streams| || s.streams[k].Closed? then s
      else if s.streams[k].Opened? || s.streams[k].inst >= |s.insts| then SetStream(s, k, Closed)
      else
        var i := s.streams[k].inst;
        if s.insts[i].closed then s.(panicked := true)               // close of closed channel
        else
          SetInst(SetStream(s, k, Closed), i, s.insts[i].(active := false, closed := true))
            .(registered := s.registered - {s.insts[i].sid})
    case Sweep =>
      if exists sid :: sid in s.registered && Expired(s, sid) && ClosedAlready(s, sid) then s.(panicked := true)
      else
        s.(insts := seq(|s.insts|, i requires 0 <= i < |s.insts| =>
                     if Registered(s, i) then Age(s.insts[i], s.clock) else s.insts[i]),
           registered := map sid | sid in s.registered && !Expired(s, sid) :: s.registered[sid])
    case CloseAll =>
      if exists sid :: sid in s.registered && ClosedAlready(s, sid) then s.(panicked := true)
      else
        s.(insts := seq(|s.insts|, i requires 0 <= i < |s.insts| =>
                     if Registered(s, i) then s.insts[i].(closed := true) else s.insts[i]),
           registered := map[])
    case _ => s
  }

  function Exec(s: State, acts: seq<Act>): State {
    if acts == [] then s else Apply(Exec(s, acts[..|acts| - 1]), acts[|acts| - 1])
  }

  // ------------------------------------------------- the invariants

  function DispJobs(d: Dispatcher): multiset<nat> {
    if d.Asleep? || d.Draining? then multiset{} else multiset{d.job}
  }

  function InstJobs(inst: Instance): multiset<nat> {
    multiset(inst.buffer) + if inst.sender.Holding? then multiset{inst.sender.job} else multiset{}
  }

  /** Every job handed to ReserveJob, where it is now. */
  function JobsHeld(s: State): multiset<nat> {
    multiset(s.queue) + DispJobs(s.disp) + Gather(s.insts, InstJobs) + s.sent + s.dropped
  }

  /** Each job is in exactly one place. */
  ghost predicate JobsOnce(s: State) { JobsHeld(s) == Upto(s.submitted) }

  /** A waiting job has, or had until its Send failed, a sender. */
  predicate InstOk(inst: Instance) {
    && |inst.buffer| <= CHAN_CAPACITY
    && (inst.sender.NotStarted? ==> inst.status.None? && inst.buffer == [])
    && (inst.sender.Ended? ==> inst.buffer == [] && inst.closed)
  }

  predicate Joined(st: Stream) { st.Connecting? || st.Connected? }

  ghost predicate Shape(s: State) {
    && (forall i :: 0 <= i < |s.insts| ==> InstOk(s.insts[i]))
    && (forall sid :: sid in s.registered ==>
         s.registered[sid] < |s.insts| && s.insts[s.registered[sid]].sid == sid && !s.insts[s.registered[sid]].closed)
    && (forall k :: 0 <= k < |s.streams| && Joined(s.streams[k]) ==>
         s.streams[k].inst < |s.insts| && (s.streams[k].Connecting? <==> s.insts[s.streams[k].inst].sender.NotStarted?))
    && (forall k, l :: 0 <= k < |s.streams| && 0 <= l < |s.streams| && k != l
                       && Joined(s.streams[k]) && Joined(s.streams[l]) ==>
         s.streams[k].inst != s.streams[l].inst)
    && (s.disp.Chosen? || s.disp.RollingBack? ==> s.disp.inst < |s.insts| && s.insts[s.disp.inst].status.Some?)
  }

  /** 1 while the dispatcher has lowered instance i's counter since its last status, unresolved. */
  function Pending(d: Dispatcher, i: Ref): nat {
    if (d.Chosen? || d.RollingBack?) && d.inst == i && !d.stale then 1 else 0
  }

  predicate StaleOn(d: Dispatcher, i: Ref) { (d.Chosen? || d.RollingBack?) && d.inst == i && d.stale }

  /** The optimistic counters against the last report. */
  predicate CounterOk(inst: Instance, pending: nat, stale: bool) {
    && (inst.status.Some? <==> inst.reported.Some?)
    && (inst.status.Some? ==>
         var st, r := inst.status.value, inst.reported.value;
         && st.available + st.waiting == r.available + r.waiting
         && 0 <= st.available == r.available + (if inst.straddled then 1 else 0) - inst.pushed - pending
         && (stale ==> !inst.straddled && st == r))
  }

  ghost predicate Counters(s: State) {
    forall i :: 0 <= i < |s.insts| ==> CounterOk(s.insts[i], Pending(s.disp, i), StaleOn(s.disp, i))
  }

  ghost predicate Inv(s: State) { Shape(s) && Counters(s) && JobsOnce(s) }
}
