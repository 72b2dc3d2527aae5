/** The global queue and the instances' channels: order, rotation and attempts. */
module SchedulerFairness {
  import opened Folds
  import opened Scheduler

  function TakenBy(s: State, a: Act): seq<Job> {
    if a == TakeJob && !s.panicked && s.disp.Draining? && s.queue != [] then [s.queue[0]] else []
  }

  function AddedBy(s: State, a: Act): seq<Job> {
    if s.panicked then [] else
    if a == Submit then [s.submitted] else
    if a == PutBack && s.disp.Failed? then [s.disp.job] else []
  }

  /** The jobs the dispatcher attempts along a schedule, in order. */
  function Taken(s: State, acts: seq<Act>): seq<Job> {
    if acts == [] then [] else
    Taken(s, acts[..|acts| - 1]) + TakenBy(Exec(s, acts[..|acts| - 1]), acts[|acts| - 1])
  }

  /** The jobs submitted or put back along a schedule, in order. */
  function Added(s: State, acts: seq<Act>): seq<Job> {
    if acts == [] then [] else
    Added(s, acts[..|acts| - 1]) + AddedBy(Exec(s, acts[..|acts| - 1]), acts[|acts| - 1])
  }

  /** Passes begun along a schedule. */
  function Passes(s: State, acts: seq<Act>): nat {
    if acts == [] then 0 else
    var t := Exec(s, acts[..|acts| - 1]);
    Passes(s, acts[..|acts| - 1]) + if acts[|acts| - 1] == Wake && !t.panicked && t.disp.Asleep? then 1 else 0
  }

  lemma QueueStep(s: State, a: Act)
    ensures TakenBy(s, a) + Apply(s, a).queue == s.queue + AddedBy(s, a)
  {
    assert s.queue != [] ==> s.queue == [s.queue[0]] + s.queue[1..];
  }

  /** The queue is first in, first out over any schedule. */
  lemma {:induction false} Fifo(s: State, acts: seq<Act>)
    ensures Taken(s, acts) + Exec(s, acts).queue == s.queue + Added(s, acts)
  {
    hide Apply, TakenBy, AddedBy;
    if acts != [] {
      var rest, a := acts[..|acts| - 1], acts[|acts| - 1];
      var t := Exec(s, rest);
      Fifo(s, rest);
      QueueStep(t, a);
      Chain(Taken(s, rest), s.queue, t.queue, Added(s, rest), TakenBy(t, a), Apply(t, a).queue, AddedBy(t, a));
    }
  }

  lemma PassStep(s: State, a: Act)
    requires s.queue != []
    ensures (if Apply(s, a).disp.Draining? then 1 else 0) + |TakenBy(s, a)|
         >= (if s.disp.Draining? then 1 else 0) + if a == Wake && !s.panicked && s.disp.Asleep? then 1 else 0
  {
  }

  /** As long as the job at position p has not been attempted, each pass but an unfinished last one
      has attempted another job. */
  lemma {:induction false} PassesAttempt(s: State, acts: seq<Act>, p: nat)
    requires p < |s.queue| && |Taken(s, acts)| <= p
    ensures |Taken(s, acts)| + (if Exec(s, acts).disp.Draining? then 1 else 0)
         >= Passes(s, acts) + (if s.disp.Draining? then 1 else 0)
  {
    if acts != [] {
      var rest := acts[..|acts| - 1];
      Fifo(s, rest);
      PassesAttempt(s, rest, p);
      PassStep(Exec(s, rest), acts[|acts| - 1]);
      hide Apply;
    }
  }

  /** A job at position p is attempted within p + 1 passes, whatever arrives in the meantime. */
  lemma NoStarvation(s: State, acts: seq<Act>, p: nat)
    requires p < |s.queue|
    ensures Passes(s, acts) > p && !Exec(s, acts).disp.Draining? ==>
              |Taken(s, acts)| > p && Taken(s, acts)[p] == s.queue[p]
  {
    Fifo(s, acts);
    if |Taken(s, acts)| <= p {
      PassesAttempt(s, acts, p);
    } else {
      assert (Taken(s, acts) + Exec(s, acts).queue)[p] == s.queue[p];
    }
  }

  // ------------------------------------------------- one instance's channel

  function PushedBy(s: State, a: Act, i: Ref): seq<Job> {
    if a == Push && !s.panicked && s.disp.Chosen? && s.disp.inst == i && i < |s.insts| && !s.insts[i].closed
       && |s.insts[i].buffer| < 100
    then [s.disp.job] else []
  }

  function SentFrom(s: State, a: Act, i: Ref): seq<Job> {
    if a == SendTake(i) && !s.panicked && i < |s.insts| && s.insts[i].sender.Ready? && s.insts[i].buffer != []
    then [s.insts[i].buffer[0]] else []
  }

  function PushedTo(s: State, acts: seq<Act>, i: Ref): seq<Job> {
    if acts == [] then [] else
    PushedTo(s, acts[..|acts| - 1], i) + PushedBy(Exec(s, acts[..|acts| - 1]), acts[|acts| - 1], i)
  }

  /** The jobs the sender of instance i takes to send, in order. */
  function TakenFrom(s: State, acts: seq<Act>, i: Ref): seq<Job> {
    if acts == [] then [] else
    TakenFrom(s, acts[..|acts| - 1], i) + SentFrom(Exec(s, acts[..|acts| - 1]), acts[|acts| - 1], i)
  }

  lemma ChannelDispatch(s: State, a: Act, i: Ref)
    requires i < |s.insts|
    ensures i < |ApplyDispatch(s, a).insts|
    ensures !s.panicked ==> ApplyDispatch(s, a).insts[i].buffer == s.insts[i].buffer + PushedBy(s, a, i)
  {
  }

  lemma ChannelSend(s: State, a: Act, i: Ref)
    requires i < |s.insts|
    ensures i < |ApplySend(s, a).insts|
    ensures !s.panicked ==> SentFrom(s, a, i) + ApplySend(s, a).insts[i].buffer == s.insts[i].buffer
  {
    assert s.insts[i].buffer != [] ==> s.insts[i].buffer == [s.insts[i].buffer[0]] + s.insts[i].buffer[1..];
  }

  lemma ChannelStream(s: State, a: Act, i: Ref)
    requires i < |s.insts|
    ensures i < |ApplyStream(s, a).insts| && ApplyStream(s, a).insts[i].buffer == s.insts[i].buffer
  {
    hide Best, Candidate, Expired, ClosedAlready;
  }

  lemma ChannelStep(s: State, a: Act, i: Ref)
    requires i < |s.insts|
    ensures i < |Apply(s, a).insts|
    ensures SentFrom(s, a, i) + Apply(s, a).insts[i].buffer == s.insts[i].buffer + PushedBy(s, a, i)
  {
    ChannelDispatch(s, a, i);
    ChannelSend(s, a, i);
    ChannelStream(s, a, i);
    hide ApplyDispatch, ApplySend, ApplyStream;
  }

  /** Each sandbox is sent its jobs in the order in which they were assigned to it. */
  lemma {:induction false} ChannelFifo(s: State, acts: seq<Act>, i: Ref)
    requires i < |s.insts|
    ensures i < |Exec(s, acts).insts|
    ensures TakenFrom(s, acts, i) + Exec(s, acts).insts[i].buffer == s.insts[i].buffer + PushedTo(s, acts, i)
  {
    hide Apply, PushedBy, SentFrom;
    if acts != [] {
      var rest, a := acts[..|acts| - 1], acts[|acts| - 1];
      var t := Exec(s, rest);
      ChannelFifo(s, rest, i);
      ChannelStep(t, a, i);
      Chain(TakenFrom(s, rest, i), s.insts[i].buffer, t.insts[i].buffer, PushedTo(s, rest, i),
            SentFrom(t, a, i), Apply(t, a).insts[i].buffer, PushedBy(t, a, i));
    }
  }

  // ------------------------------------------------- failing passes

  /** A pass that finds no instance, k times over. */
  function FailingPasses(k: nat): seq<Act> {
    if k == 0 then [] else FailingPasses(k - 1) + [Wake] + [TakeJob] + [NoCandidate] + [PutBack]
  }

  lemma ExecOne(s: State, acts: seq<Act>, a: Act)
    ensures Exec(s, acts + [a]) == Apply(Exec(s, acts), a)
  {
    assert (acts + [a])[..|acts|] == acts;
  }

  lemma OneFailingPass(s: State, acts: seq<Act>)
    requires var t := Exec(s, acts);
      !t.panicked && t.disp.Asleep? && t.queue != [] && forall i :: 0 <= i < |t.insts| ==> !Candidate(t, i)
    ensures var t := Exec(s, acts);
      Exec(s, acts + [Wake] + [TakeJob] + [NoCandidate] + [PutBack]) == t.(queue := t.queue[1..] + [t.queue[0]])
  {
    ExecOne(s, acts, Wake);
    ExecOne(s, acts + [Wake], TakeJob);
    ExecOne(s, acts + [Wake] + [TakeJob], NoCandidate);
    ExecOne(s, acts + [Wake] + [TakeJob] + [NoCandidate], PutBack);
    hide Exec;
    var t := Exec(s, acts);
    var u := Apply(Apply(t, Wake), TakeJob);
    assert u == t.(disp := Held(t.queue[0]), queue := t.queue[1..]);
    assert forall i :: 0 <= i < |u.insts| ==> Candidate(u, i) == Candidate(t, i);
  }

  lemma SameCandidates(s: State, t: State)
    requires t == s.(queue := t.queue)
    ensures forall i :: 0 <= i < |s.insts| ==> Candidate(t, i) == Candidate(s, i)
  {
  }

  lemma RotateOnce(q: seq<Job>, k: nat)
    requires k < |q|
    ensures var r := q[k..] + q[..k]; r[1..] + [r[0]] == q[k + 1..] + q[..k + 1]
  {
    var r := q[k..] + q[..k];
    assert r[1..] == q[k + 1..] + q[..k];
    assert q[..k + 1] == q[..k] + [q[k]];
  }

  lemma OneMorePass(s: State, acts: seq<Act>, k: nat)
    requires !s.panicked && s.disp.Asleep? && 0 < k <= |s.queue|
    requires forall i :: 0 <= i < |s.insts| ==> !Candidate(s, i)
    requires Exec(s, acts) == s.(queue := s.queue[k - 1..] + s.queue[..k - 1])
    ensures Exec(s, acts + [Wake] + [TakeJob] + [NoCandidate] + [PutBack]) ==
            s.(queue := s.queue[k..] + s.queue[..k])
  {
    hide Exec, Candidate;
    SameCandidates(s, Exec(s, acts));
    OneFailingPass(s, acts);
    RotateOnce(s.queue, k - 1);
  }

  /** Failing passes rotate the queue and change nothing else ... */
  lemma {:induction false} FailingPassesRotate(s: State, k: nat)
    requires !s.panicked && s.disp.Asleep? && k <= |s.queue|
    requires forall i :: 0 <= i < |s.insts| ==> !Candidate(s, i)
    ensures Exec(s, FailingPasses(k)) == s.(queue := s.queue[k..] + s.queue[..k])
  {
    hide Candidate;
    if k == 0 {
      assert s.queue[0..] + s.queue[..0] == s.queue;
    } else {
      hide Exec;
      FailingPassesRotate(s, k - 1);
      OneMorePass(s, FailingPasses(k - 1), k);
    }
  }

  /** ... and as many passes as there are jobs restore it. */
  lemma FailingPassesRestore(s: State)
    requires !s.panicked && s.disp.Asleep? && forall i :: 0 <= i < |s.insts| ==> !Candidate(s, i)
    ensures Exec(s, FailingPasses(|s.queue|)) == s
  {
    FailingPassesRotate(s, |s.queue|);
    assert s.queue[|s.queue|..] + s.queue[..|s.queue|] == s.queue;
  }
}
