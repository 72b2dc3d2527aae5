/** Concrete runs: a status report between a decrement and its rollback, and the two ways to a panic. */
module SchedulerRuns {
  import opened Folds
  import opened Scheduler

  lemma Then(acts: seq<Act>, a: Act) returns (more: seq<Act>)
    ensures more == acts + [a] && Exec(Init(), more) == Apply(Exec(Init(), acts), a)
  {
    more := acts + [a];
    assert more[..|acts|] == acts;
  }

  const REPORT := Status(200, 0, 0, 200)

  /** One sandbox that reported 200 free boxes and got k jobs its sender has not taken. */
  function Filled(k: nat): State {
    var inst := Instance(5, true, Some(Status(200 - k, k, 0, 200)), 0, seq(k, j => j), false, Ready, Some(REPORT),
      false, k);
    Init().(submitted := k, insts := [inst], registered := map[5 := 0], streams := [Connected(0)], disp := Draining)
  }

  lemma Join() returns (acts: seq<Act>)
    ensures Exec(Init(), acts) == Filled(0)
  {
    acts := JoinOnce();
    acts := Then(acts, StatusArrives(0, REPORT));
    acts := Then(acts, Wake);
    assert seq(0, j => j) == [];
  }

  /** The next job is chosen for the sandbox. */
  function Picked(k: nat): State {
    var inst := Filled(k).insts[0].(status := Some(Status(199 - k, k + 1, 0, 200)));
    Filled(k).(submitted := k + 1, insts := [inst], disp := Chosen(k, 0, false))
  }

  lemma Pick(acts: seq<Act>, k: nat) returns (more: seq<Act>)
    requires k <= 100 && Exec(Init(), acts) == Filled(k)
    ensures Exec(Init(), more) == Picked(k)
  {
    hide Apply, Filled, Picked;
    more := Hold(acts, k);
    more := Then(more, Choose(0));
    PickNext(k);
  }

  lemma PickNext(k: nat)
    requires k <= 100
    ensures Apply(Filled(k).(submitted := k + 1, disp := Held(k)), Choose(0)) == Picked(k)
  {
    var s := Filled(k).(submitted := k + 1, disp := Held(k));
    assert s.insts[0].status == Some(Status(200 - k, k, 0, 200)) && Registered(s, 0);
    assert Best(s, 0);
  }

  lemma Hold(acts: seq<Act>, k: nat) returns (more: seq<Act>)
    requires Exec(Init(), acts) == Filled(k)
    ensures Exec(Init(), more) == Filled(k).(submitted := k + 1, disp := Held(k))
  {
    more := Then(acts, Submit);
    more := Then(more, TakeJob);
  }

  lemma PushNext(k: nat)
    requires k < 100
    ensures Apply(Picked(k), Push) == Filled(k + 1)
  {
    assert seq(k, j => j) + [k] == seq(k + 1, j => j);
  }

  lemma {:induction false} Fill(k: nat) returns (acts: seq<Act>)
    requires k <= 100
    ensures Exec(Init(), acts) == Filled(k)
  {
    if k == 0 {
      acts := Join();
    } else {
      acts := Fill(k - 1);
      acts := Pick(acts, k - 1);
      acts := Then(acts, Push);
      PushNext(k - 1);
    }
  }

  /** AvailableCount ends above the last report, and WaitingCount, which the global status adds up,
      ends below zero. */
  lemma RollbackAfterReport() returns (acts: seq<Act>)
    ensures |Exec(Init(), acts).insts| == 1
    ensures var inst := Exec(Init(), acts).insts[0];
      inst.reported == Some(Status(3, 0, 97, 100)) && inst.status == Some(Status(4, -1, 97, 100))
  {
    acts := Fill(100);
    acts := Pick(acts, 100);
    acts := Then(acts, Push);
    acts := Then(acts, StatusArrives(0, Status(3, 0, 97, 100)));
    acts := Then(acts, RollBack);
    ReportThenRollBack();
  }

  lemma ReportThenRollBack()
    ensures var s := Apply(Apply(Apply(Picked(100), Push), StatusArrives(0, Status(3, 0, 97, 100))), RollBack);
      |s.insts| == 1 && s.insts[0].reported == Some(Status(3, 0, 97, 100)) &&
        s.insts[0].status == Some(Status(4, -1, 97, 100))
  {
    assert Apply(Picked(100), Push) == Picked(100).(disp := RollingBack(100, 0, false));
  }

  /** A sandbox whose stream is open but that has sent no status for five minutes: its end panics. */
  lemma SweepThenDisconnect() returns (acts: seq<Act>)
    ensures !Exec(Init(), acts).panicked && Exec(Init(), acts + [Disconnect(0)]).panicked
  {
    acts := JoinOnce();
    acts := Then(acts, Elapse(REMOVED_AFTER + 1));
    assert Exec(Init(), acts) == Silent();
    acts := Then(acts, Sweep);
    hide Exec;
    SilentSwept();
    var more := Then(acts, Disconnect(0));
  }

  function Silent(): State {
    var inst := Instance(5, true, None, 0, [], false, Ready, None, false, 0);
    Init().(insts := [inst], registered := map[5 := 0], streams := [Connected(0)], clock := REMOVED_AFTER + 1)
  }

  lemma SilentSwept()
    ensures var t := Apply(Silent(), Sweep);
      !t.panicked && |t.insts| == 1 && t.insts[0].closed && t.streams == [Connected(0)]
  {
    assert Registered(Silent(), 0);
    assert !Silent().insts[0].closed;
  }

  /** A sandbox that disconnects between being chosen and the send: the dispatcher panics. */
  lemma DisconnectThenPush() returns (acts: seq<Act>)
    ensures !Exec(Init(), acts).panicked && Exec(Init(), acts + [Push]).panicked
  {
    acts := Fill(0);
    acts := Pick(acts, 0);
    hide Exec;
    acts := Then(acts, Disconnect(0));
    PickedLeaves();
    var more := Then(acts, Push);
  }

  lemma PickedLeaves()
    ensures var t := Apply(Picked(0), Disconnect(0));
      !t.panicked && |t.insts| == 1 && t.insts[0].closed && t.disp == Chosen(0, 0, false)
  {
  }

  /** A sandbox that connects again before its old stream ends: then the new instance is active and its stream
      connected, but it is not registered any more. */
  lemma ReconnectThenDisconnect() returns (acts: seq<Act>)
    ensures var s := Exec(Init(), acts);
      && !s.panicked && |s.insts| == |s.streams| == 2 && s.insts[0].sid == s.insts[1].sid
      && s.streams == [Closed, Connected(1)] && s.insts[1].active && !s.insts[1].closed && !Registered(s, 1)
  {
    acts := JoinOnce();
    hide Exec;
    acts := Then(acts, Open);
    acts := Then(acts, Connect(1, 5));
    acts := Then(acts, ConnectOk(1));
    JoinAgain();
    acts := Then(acts, Disconnect(0));
    OldStreamEnds();
  }

  function Once(): State {
    var inst := Instance(5, true, None, 0, [], false, Ready, None, false, 0);
    Init().(insts := [inst], registered := map[5 := 0], streams := [Connected(0)])
  }

  lemma JoinOnce() returns (acts: seq<Act>)
    ensures Exec(Init(), acts) == Once()
  {
    acts := Then([], Open);
    acts := Then(acts, Connect(0, 5));
    acts := Then(acts, ConnectOk(0));
  }

  lemma JoinAgain()
    ensures Apply(Apply(Apply(Once(), Open), Connect(1, 5)), ConnectOk(1)) == Twice()
  {
  }

  /** Two streams of one sandbox, the newer one registered. */
  function Twice(): State {
    var inst := Instance(5, true, None, 0, [], false, Ready, None, false, 0);
    Init().(insts := [inst, inst], registered := map[5 := 1], streams := [Connected(0), Connected(1)])
  }

  lemma OldStreamEnds()
    ensures var s := Apply(Twice(), Disconnect(0));
      && !s.panicked && |s.insts| == |s.streams| == 2 && s.insts[0].sid == s.insts[1].sid
      && s.streams == [Closed, Connected(1)] && s.insts[1].active && !s.insts[1].closed && !Registered(s, 1)
  {
  }
}
