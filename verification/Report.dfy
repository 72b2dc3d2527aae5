/** MergeJudgeResults of sandbox/result.go: failed targets become suites of the stored report. */
module Report {
  import opened Folds
  import opened Pipeline

  datatype Suite = Suite(name: string, tests: int, failures: int)

  /** The report's counters and suites; the texts and times in it play no part here. */
  datatype AllTests = AllTests(tests: int, failures: int, suites: seq<Suite>)

  function ErrorSuite(target: string): Suite { Suite(target, 1, 1) }

  function Names(suites: seq<Suite>): set<string> { set i | 0 <= i < |suites| :: suites[i].name }

  /** The suites appended for the failed targets, in order. */
  function ErrorSuites(results: seq<JudgeResult>, existing: set<string>): seq<Suite> {
    if results == [] then [] else
    var r := results[|results| - 1];
    ErrorSuites(results[..|results| - 1], existing) +
    if r.status == SUCCESS || r.target in existing then [] else [ErrorSuite(r.target)]
  }

  function WithErrors(all: AllTests, results: seq<JudgeResult>): AllTests {
    var more := ErrorSuites(results, Names(all.suites));
    AllTests(all.tests + |more|, all.failures + |more|, all.suites + more)
  }

  /** `message` is the parsed message.txt, if there is one, and `score` the number in score.txt. */
  method MergeJudgeResults(message: Option<AllTests>, score: Option<real>, results: seq<JudgeResult>)
    returns (all: AllTests, totalScore: real)
    ensures all == WithErrors(if message.Some? then message.value else AllTests(0, 0, []), results)
    ensures totalScore == if score.Some? then score.value else 0.0
  {
    all := if message.Some? then message.value else AllTests(0, 0, []);
    ghost var given := all;
    totalScore := 0.0;
    if score.Some? {
      totalScore := score.value;
    }
    var existing: set<string> := {};
    for i := 0 to |all.suites|
      invariant existing == Names(all.suites[..i])
    {
      existing := existing + {all.suites[i].name};
      assert all.suites[..i + 1] == all.suites[..i] + [all.suites[i]];
    }
    assert all.suites[..|all.suites|] == all.suites;
    for k := 0 to |results|
      invariant all == WithErrors(given, results[..k])
    {
      assert results[..k + 1][..k] == results[..k];
      var r := results[k];
      if r.status != SUCCESS && r.target !in existing {
        all := AllTests(all.tests + 1, all.failures + 1, all.suites + [ErrorSuite(r.target)]);
      }
    }
    assert results[..|results|] == results;
  }

  lemma {:induction false} FailedIsNamed(results: seq<JudgeResult>, existing: set<string>, k: nat)
    requires k < |results| && results[k].status != SUCCESS
    ensures results[k].target in existing || results[k].target in Names(ErrorSuites(results, existing))
  {
    var n := |results| - 1;
    var front, all := ErrorSuites(results[..n], existing), ErrorSuites(results, existing);
    if k < n {
      FailedIsNamed(results[..n], existing, k);
      if results[k].target !in existing {
        var i :| 0 <= i < |front| && front[i].name == results[k].target;
        assert all[i] == front[i];
      }
    } else if results[n].target !in existing {
      assert all[|all| - 1] == ErrorSuite(results[n].target);
    }
  }

  function Tests(suites: seq<Suite>): int {
    if suites == [] then 0 else Tests(suites[..|suites| - 1]) + suites[|suites| - 1].tests
  }

  function Failures(suites: seq<Suite>): int {
    if suites == [] then 0 else Failures(suites[..|suites| - 1]) + suites[|suites| - 1].failures
  }

  lemma {:induction false} Appended(a: seq<Suite>, b: seq<Suite>)
    requires forall i :: 0 <= i < |b| ==> b[i].tests == b[i].failures == 1
    ensures Tests(a + b) == Tests(a) + |b| && Failures(a + b) == Failures(a) + |b|
  {
    if b == [] {
      assert a + b == a;
    } else {
      Appended(a, b[..|b| - 1]);
      assert (a + b)[..|a + b| - 1] == a + b[..|b| - 1];
    }
  }

  lemma {:induction false} ErrorSuitesCountOne(results: seq<JudgeResult>, existing: set<string>)
    ensures forall e :: e in ErrorSuites(results, existing) ==> e.tests == e.failures == 1 && e.name !in existing
  {
    if results != [] {
      var front, all := ErrorSuites(results[..|results| - 1], existing), ErrorSuites(results, existing);
      ErrorSuitesCountOne(results[..|results| - 1], existing);
      assert forall e :: e in all ==> e in front || e in all[|front|..];
    }
  }

  lemma {:induction false} OnlyFailedAdded(results: seq<JudgeResult>, existing: set<string>)
    ensures forall e :: e in ErrorSuites(results, existing) ==>
              exists r :: r in results && r.target == e.name && r.status != SUCCESS
  {
    if results != [] {
      var n := |results| - 1;
      var front := ErrorSuites(results[..n], existing);
      OnlyFailedAdded(results[..n], existing);
      assert results[n] in results;
      forall e | e in ErrorSuites(results, existing)
        ensures exists r :: r in results && r.target == e.name && r.status != SUCCESS
      {
        if e in front {
          var r :| r in results[..n] && r.target == e.name && r.status != SUCCESS;
          assert r in results;
        }
      }
    }
  }

  /** The given suites stay, in place; every failed target is named by some suite, and only failed targets that
      were not are added; Tests, Failures and the number of suites grow alike, so counters that were the sums over
      the suites remain so. */
  lemma MergedReport(all: AllTests, results: seq<JudgeResult>)
    ensures var m := WithErrors(all, results);
      && all.suites <= m.suites
      && (forall k :: 0 <= k < |results| && results[k].status != SUCCESS ==> results[k].target in Names(m.suites))
      && (forall e :: e in m.suites[|all.suites|..] ==>
            e.name !in Names(all.suites) && exists r :: r in results && r.target == e.name && r.status != SUCCESS)
      && m.tests - all.tests == m.failures - all.failures == |m.suites| - |all.suites|
      && (all.tests == Tests(all.suites) ==> m.tests == Tests(m.suites))
      && (all.failures == Failures(all.suites) ==> m.failures == Failures(m.suites))
  {
    var more := ErrorSuites(results, Names(all.suites));
    var m := WithErrors(all, results);
    ErrorSuitesCountOne(results, Names(all.suites));
    OnlyFailedAdded(results, Names(all.suites));
    assert m.suites[|all.suites|..] == more;
    Appended(all.suites, more);
    forall k | 0 <= k < |results| && results[k].status != SUCCESS ensures results[k].target in Names(m.suites) {
      FailedIsNamed(results, Names(all.suites), k);
      if results[k].target in Names(all.suites) {
        var i :| 0 <= i < |all.suites| && all.suites[i].name == results[k].target;
        assert m.suites[i] == all.suites[i];
      } else {
        var i :| 0 <= i < |more| && more[i].name == results[k].target;
        assert m.suites[|all.suites| + i] == more[i];
      }
    }
  }

  /** The places at which a target has failed. */
  function FailedAt(results: seq<JudgeResult>, t: string): set<nat> {
    set k: nat | k < |results| && results[k].target == t && results[k].status != SUCCESS
  }

  /** The places of the suites with this name. */
  function NamedAt(suites: seq<Suite>, t: string): set<nat> {
    set i: nat | i < |suites| && suites[i].name == t
  }

  lemma OneMoreFailed(results: seq<JudgeResult>, t: string)
    requires results != []
    ensures var n := |results| - 1;
      |FailedAt(results, t)| == |FailedAt(results[..n], t)| +
        if results[n].target == t && results[n].status != SUCCESS then 1 else 0
  {
    var n := |results| - 1;
    var more: set<nat> := if results[n].target == t && results[n].status != SUCCESS then {n} else {};
    assert FailedAt(results, t) == FailedAt(results[..n], t) + more;
  }

  lemma OneMoreNamed(suites: seq<Suite>, s: Suite, t: string)
    ensures |NamedAt(suites + [s], t)| == |NamedAt(suites, t)| + if s.name == t then 1 else 0
  {
    var more: set<nat> := if s.name == t then {|suites|} else {};
    assert NamedAt(suites + [s], t) == NamedAt(suites, t) + more;
  }

  /** A target that no given suite names gets one suite for each of its failed results; any other gets none. */
  lemma {:induction false} SuitePerFailure(results: seq<JudgeResult>, existing: set<string>, t: string)
    ensures |NamedAt(ErrorSuites(results, existing), t)| == if t in existing then 0 else |FailedAt(results, t)|
  {
    if results != [] {
      var n := |results| - 1;
      SuitePerFailure(results[..n], existing, t);
      OneMoreFailed(results, t);
      OneMoreNamed(ErrorSuites(results[..n], existing), ErrorSuite(results[n].target), t);
      assert ErrorSuites(results[..n], existing) + [] == ErrorSuites(results[..n], existing);
    } else {
      assert FailedAt(results, t) == {};
    }
  }
}
