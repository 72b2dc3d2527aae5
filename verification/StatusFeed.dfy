/** sendCurrentStatus of cmd/sandbox-server/main.go: the throttled status messages, what a receiver
    makes of them, and how long a sandbox can look dead. Times are milliseconds. */
module StatusFeed {
  import opened Folds
  import opened Scheduler

  const FORCE_AFTER := 15_000
  const POLL_EVERY := 300
  const SWEEP_EVERY := 30_000

  /** The process-wide lastStatus record; `at` is None until the first message. */
  datatype Last = Last(status: Status, at: Option<int>)

  const NEVER := Last(Status(0, 0, 0, 0), None)

  datatype Call = Call(available: int, waiting: int, processing: int, now: int)

  /** The four numbers of one call. */
  function Snapshot(c: Call): Status {
    Status(c.available, c.waiting, c.processing, c.available + c.processing)
  }

  predicate Due(last: Last, c: Call) {
    Snapshot(c) != last.status || last.at.None? || c.now - last.at.value >= FORCE_AFTER
  }

  function NextLast(last: Last, c: Call): Last {
    if Due(last, c) then Last(Snapshot(c), Some(c.now)) else last
  }

  class StatusSender {
    var lastAvailable: int
    var lastWaiting: int
    var lastProcessing: int
    var lastTotal: int
    var lastSendTime: Option<int>

    function View(): Last
      reads this
    {
      Last(Status(lastAvailable, lastWaiting, lastProcessing, lastTotal), lastSendTime)
    }

    constructor ()
      ensures View() == NEVER
    {
      lastAvailable, lastWaiting, lastProcessing, lastTotal, lastSendTime := 0, 0, 0, 0, None;
    }

    /** Whether or not a message goes out, the record afterwards holds the current numbers. */
    method SendCurrentStatus(c: Call) returns (msg: Option<Status>)
      modifies this
      ensures View() == NextLast(old(View()), c) && View().status == Snapshot(c)
      ensures msg == if Due(old(View()), c) then Some(Snapshot(c)) else None
      ensures lastAvailable == c.available && lastWaiting == c.waiting && lastProcessing == c.processing
      ensures lastTotal == c.available + c.processing
      ensures msg.None? <==> lastSendTime == old(lastSendTime) && old(lastSendTime).Some?
                             && c.now - old(lastSendTime).value < 15_000 && old(View()).status == View().status
      ensures msg.Some? ==> msg.value == View().status && lastSendTime == Some(c.now)
    {
      var total := c.available + c.processing;
      var statusChanged := c.available != lastAvailable || c.waiting != lastWaiting
                           || c.processing != lastProcessing || total != lastTotal;
      var forceUpdate := lastSendTime.None? || c.now - lastSendTime.value >= FORCE_AFTER;
      if !statusChanged && !forceUpdate {
        return None;
      }
      lastAvailable, lastWaiting, lastProcessing, lastTotal := c.available, c.waiting, c.processing, total;
      lastSendTime := Some(c.now);
      return Some(Status(c.available, c.waiting, c.processing, total));
    }
  }

  // ------------------------------------------------- throttling loses nothing

  function After(last: Last, calls: seq<Call>): Last {
    if calls == [] then last else NextLast(After(last, calls[..|calls| - 1]), calls[|calls| - 1])
  }

  /** The messages sent by a sequence of calls on one connection. */
  function Sent(last: Last, calls: seq<Call>): seq<Status> {
    if calls == [] then [] else
    var before, c := After(last, calls[..|calls| - 1]), calls[|calls| - 1];
    Sent(last, calls[..|calls| - 1]) + if Due(before, c) then [Snapshot(c)] else []
  }

  /** Once a connection has carried a message, its latest message is the snapshot of its latest call,
      sent or not: a receiver that replays only what was sent is never behind. */
  lemma {:induction false} ThrottlingLosesNothing(last: Last, calls: seq<Call>)
    requires Sent(last, calls) != []
    ensures Sent(last, calls)[|Sent(last, calls)| - 1] == Snapshot(calls[|calls| - 1]) == After(last, calls).status
  {
    var rest := calls[..|calls| - 1];
    if Sent(last, rest) != [] { ThrottlingLosesNothing(last, rest); }
  }

  /** A connection stays silent exactly as long as nothing changes and the last message of the
      process, on whatever connection, is younger than 15 s: a reconnect alone sends nothing. */
  lemma {:induction false} SilentConnection(last: Last, calls: seq<Call>)
    ensures Sent(last, calls) == [] <==>
      forall k :: 0 <= k < |calls| ==>
        Snapshot(calls[k]) == last.status && last.at.Some? && calls[k].now - last.at.value < FORCE_AFTER
    ensures Sent(last, calls) == [] ==> After(last, calls) == last
  {
    if calls != [] {
      var rest := calls[..|calls| - 1];
      SilentConnection(last, rest);
      assert forall k :: 0 <= k < |rest| ==> rest[k] == calls[k];
    }
  }

  // ------------------------------------------------- one sandbox over time

  /** `mark` is when the newest status the scheduler has seen was sent, or when the sandbox connected;
      `inflight` are the send times of the statuses under way, oldest first. */
  datatype Feed = Feed(
    now: int, lastPoll: int, lastSend: int, inflight: seq<int>, mark: int,
    inst: Instance, registered: bool, lastSweep: int, alive: bool)

  /** A sandbox connecting at time t, whose process last sent a status at `lastSend`. */
  predicate Connects(f: Feed, t: int) {
    && f.now == f.lastPoll == f.mark == f.inst.lastSeen == t && f.lastSend <= t && f.inflight == []
    && f.lastSweep <= t <= f.lastSweep + SWEEP_EVERY && f.inst.active && f.registered && f.alive
  }

  datatype Tick = Elapse(ms: nat) | Poll(changed: bool) | Arrive(st: Status) | Sweep | Die

  /** Time passes no further than the next poll of a living sandbox, the delay bound of its oldest
      status under way, and the next sweep allow. */
  predicate MayElapse(f: Feed, ms: nat, delay: nat) {
    && f.now + ms <= f.lastSweep + SWEEP_EVERY
    && (f.alive ==> f.now + ms <= f.lastPoll + POLL_EVERY)
    && (f.alive && f.inflight != [] ==> f.now + ms <= f.inflight[0] + delay)
  }

  function Step(f: Feed, tick: Tick, delay: nat): Feed {
    match tick
    case Elapse(ms) => if MayElapse(f, ms, delay) then f.(now := f.now + ms) else f
    case Poll(changed) =>
      if !f.alive then f
      else if changed || f.now - f.lastSend >= FORCE_AFTER then
        f.(lastPoll := f.now, lastSend := f.now, inflight := f.inflight + [f.now])
      else f.(lastPoll := f.now)
    case Arrive(st) =>
      if f.inflight == [] then f
      else f.(inst := Report(f.inst, st, f.now), mark := f.inflight[0], inflight := f.inflight[1..])
    case Sweep =>
      f.(lastSweep := f.now, inst := if f.registered then Age(f.inst, f.now) else f.inst,
         registered := f.registered && f.now - f.inst.lastSeen <= REMOVED_AFTER)
    case Die => f.(alive := false)
  }

  function Run(f: Feed, ticks: seq<Tick>, delay: nat): Feed {
    if ticks == [] then f else Step(Run(f, ticks[..|ticks| - 1], delay), ticks[|ticks| - 1], delay)
  }

  /** The send times of the newest seen status and of those under way. */
  function Marks(f: Feed): seq<int> { [f.mark] + f.inflight }

  /** Consecutive statuses were sent less than a poll apart after the force limit, and the newest no
      longer ago than that. */
  ghost predicate Steady(f: Feed, delay: nat) {
    var m := Marks(f);
    && (forall k :: 0 <= k < |f.inflight| ==> m[k] <= m[k + 1] <= m[k] + FORCE_AFTER + POLL_EVERY)
    && m[|m| - 1] <= f.lastPoll <= f.now <= f.lastPoll + POLL_EVERY
    && f.lastSend <= m[|m| - 1] && f.lastPoll - m[|m| - 1] < FORCE_AFTER
    && (f.inflight != [] ==> f.now <= f.inflight[0] + delay)
    && f.mark <= f.inst.lastSeen <= f.now
  }

  lemma PollSteady(f: Feed, changed: bool, delay: nat)
    requires Steady(f, delay) && f.alive
    ensures Steady(Step(f, Poll(changed), delay), delay)
  {
    var g, m := Step(f, Poll(changed), delay), Marks(f);
    if g.inflight != f.inflight {
      assert Marks(g) == m + [f.now];
      forall k | 0 <= k < |g.inflight| ensures Marks(g)[k] <= Marks(g)[k + 1] <= Marks(g)[k] + FORCE_AFTER +
        POLL_EVERY {
        if k < |f.inflight| { assert m[k] <= m[k + 1]; }
      }
    }
  }

  lemma ArriveSteady(f: Feed, st: Status, delay: nat)
    requires Steady(f, delay) && f.inflight != []
    ensures Steady(Step(f, Arrive(st), delay), delay)
  {
    var g, m := Step(f, Arrive(st), delay), Marks(f);
    assert Marks(g) == m[1..];
    forall k | 0 <= k < |g.inflight| ensures Marks(g)[k] <= Marks(g)[k + 1] <= Marks(g)[k] + FORCE_AFTER + POLL_EVERY {
      assert m[k + 1] <= m[k + 2] <= m[k + 1] + FORCE_AFTER + POLL_EVERY;
    }
    LastMark(m);
    assert Marks(g)[|g.inflight|] == m[|f.inflight|];
    assert m[1] == f.inflight[0];
    if g.inflight != [] { assert m[1] <= m[2] == g.inflight[0]; }
  }

  lemma {:induction false} LastMark(m: seq<int>)
    requires |m| > 1 && forall k :: 0 <= k < |m| - 1 ==> m[k] <= m[k + 1]
    ensures m[1] <= m[|m| - 1]
  {
    if |m| > 2 { LastMark(m[..|m| - 1]); }
  }

  lemma SteadyStep(f: Feed, tick: Tick, delay: nat)
    requires Steady(f, delay) && f.alive
    ensures Step(f, tick, delay).alive ==> Steady(Step(f, tick, delay), delay)
  {
    match tick
    case Poll(changed) => PollSteady(f, changed, delay);
    case Arrive(st) => if f.inflight != [] { ArriveSteady(f, st, delay); }
    case _ => assert Marks(Step(f, tick, delay)) == Marks(f);
  }

  lemma SeenRecently(f: Feed, delay: nat)
    requires Steady(f, delay)
    ensures f.now - f.inst.lastSeen <= FORCE_AFTER + POLL_EVERY + delay
  {
    var m := Marks(f);
    if f.inflight != [] { assert m[1] == f.inflight[0] <= m[0] + FORCE_AFTER + POLL_EVERY; }
  }

  /** A living sandbox whose statuses arrive within `delay` is never marked inactive nor removed, as
      long as 15.3 s and the delay together stay within the minute. */
  lemma {:induction false} LivingStaysActive(f: Feed, t: int, ticks: seq<Tick>, delay: nat)
    requires Connects(f, t) && FORCE_AFTER + POLL_EVERY + delay <= INACTIVE_AFTER
    requires Run(f, ticks, delay).alive
    ensures var g := Run(f, ticks, delay);
      Steady(g, delay) && g.inst.active && g.registered && g.now - g.inst.lastSeen <= FORCE_AFTER + POLL_EVERY + delay
  {
    if ticks != [] {
      var g := Run(f, ticks[..|ticks| - 1], delay);
      LivingStaysActive(f, t, ticks[..|ticks| - 1], delay);
      SteadyStep(g, ticks[|ticks| - 1], delay);
    }
    SeenRecently(Run(f, ticks, delay), delay);
  }

  /** What the last sweep has already done. */
  predicate Swept(f: Feed) {
    && f.lastSweep <= f.now <= f.lastSweep + SWEEP_EVERY && f.inst.lastSeen <= f.now
    && (f.lastSweep - f.inst.lastSeen > INACTIVE_AFTER ==> !f.inst.active || !f.registered)
    && (f.lastSweep - f.inst.lastSeen > REMOVED_AFTER ==> !f.registered)
  }

  /** A sandbox not heard of for more than 90 s is inactive, and for more than 330 s it is gone. */
  lemma {:induction false} SilentIsDropped(f: Feed, t: int, ticks: seq<Tick>, delay: nat)
    requires Connects(f, t)
    ensures var g := Run(f, ticks, delay);
      && Swept(g)
      && (g.now - g.inst.lastSeen > INACTIVE_AFTER + SWEEP_EVERY ==> !g.inst.active || !g.registered)
      && (g.now - g.inst.lastSeen > REMOVED_AFTER + SWEEP_EVERY ==> !g.registered)
  {
    if ticks != [] {
      SilentIsDropped(f, t, ticks[..|ticks| - 1], delay);
    }
  }
}
