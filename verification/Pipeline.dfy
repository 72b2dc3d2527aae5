/** Compile, execute, merge and score over a list of targets: sandbox/runHandler.go. Each run of
    `isolate` is an arbitrary outcome: whether it failed, and what it printed. */
module Pipeline {
  import opened Folds
  import opened Numerals

  datatype Outcome = Outcome(failed: bool, out: string)

  datatype Status = SUCCESS | COMPILE_ERROR | RUNTIME_ERROR | FAILED | BLANK

  /** What is stored as a result text. */
  datatype Text =
    | Output(out: string)
    | TestsNotAllPassed
    | Crashed(out: string)
    | CompileNotSuccess
    | ReadyForScoring
    | MissingCompileResult
    | CompileFailed(why: Text)
    | ExecuteFailed(why: Text)

  datatype JudgeResult = JudgeResult(target: string, status: Status, result: Text)

  predicate At(s: string, part: string, i: int) {
    0 <= i <= |s| - |part| && s[i..i + |part|] == part
  }

  predicate Contains(s: string, part: string) {
    exists i :: 0 <= i <= |s| - |part| && At(s, part, i)
  }

  const STATUS_ONE := "Exited with error status 1"
  const STATUS_ANY := "Exited with error status"

  predicate HasCore(out: string) {
    Contains(out, "core dumped") || Contains(out, "Illegal instruction") ||
    Contains(out, "Segmentation fault") || Contains(out, "Aborted")
  }

  function Compiled(target: string, run: Outcome): JudgeResult {
    JudgeResult(target, if run.failed then COMPILE_ERROR else SUCCESS, Output(run.out))
  }

  function Executed(c: JudgeResult, run: Outcome): JudgeResult {
    if c.status == FAILED then JudgeResult(c.target, FAILED, CompileNotSuccess)
    else if !run.failed then JudgeResult(c.target, SUCCESS, Output(run.out))
    else if Contains(run.out, STATUS_ONE) then JudgeResult(c.target, SUCCESS, TestsNotAllPassed)
    else if HasCore(run.out) && Contains(run.out, STATUS_ANY)
      then JudgeResult(c.target, RUNTIME_ERROR, Crashed(run.out))
    else JudgeResult(c.target, FAILED, Output(run.out))
  }

  function Merged(comp: Option<JudgeResult>, e: JudgeResult): JudgeResult {
    if comp.None? then JudgeResult(e.target, BLANK, MissingCompileResult)
    else if comp.value.status != SUCCESS then JudgeResult(e.target, comp.value.status, CompileFailed(comp.value.result))
    else if e.status != SUCCESS then JudgeResult(e.target, e.status, ExecuteFailed(e.result))
    else JudgeResult(e.target, SUCCESS, ReadyForScoring)
  }

  function Scored(m: JudgeResult, run: Outcome): JudgeResult {
    if m.status != SUCCESS then m
    else JudgeResult(m.target, if run.failed then FAILED else SUCCESS, Output(run.out))
  }

  method RunCompile(targets: seq<string>, runs: seq<Outcome>) returns (results: seq<JudgeResult>)
    requires |runs| == |targets|
    ensures |results| == |targets| && forall k :: 0 <= k < |targets| ==> results[k] == Compiled(targets[k], runs[k])
  {
    results := [];
    for k := 0 to |targets|
      invariant |results| == k && forall j :: 0 <= j < k ==> results[j] == Compiled(targets[j], runs[j])
    {
      var status := if runs[k].failed then COMPILE_ERROR else SUCCESS;
      results := results + [JudgeResult(targets[k], status, Output(runs[k].out))];
    }
  }

  method RunExecute(compiled: seq<JudgeResult>, runs: seq<Outcome>) returns (results: seq<JudgeResult>)
    requires |runs| == |compiled|
    ensures |results| == |compiled| && forall k :: 0 <= k < |compiled| ==> results[k] == Executed(compiled[k], runs[k])
  {
    results := [];
    for k := 0 to |compiled|
      invariant |results| == k && forall j :: 0 <= j < k ==> results[j] == Executed(compiled[j], runs[j])
    {
      var target := compiled[k];
      var out := runs[k].out;
      var result: JudgeResult;
      if target.status == FAILED {
        result := JudgeResult(target.target, FAILED, CompileNotSuccess);
      } else if runs[k].failed {
        if Contains(out, STATUS_ONE) {
          result := JudgeResult(target.target, SUCCESS, TestsNotAllPassed);
        } else if HasCore(out) && Contains(out, STATUS_ANY) {
          result := JudgeResult(target.target, RUNTIME_ERROR, Crashed(out));
        } else {
          result := JudgeResult(target.target, FAILED, Output(out));
        }
      } else {
        result := JudgeResult(target.target, SUCCESS, Output(out));
      }
      results := results + [result];
    }
  }

  /** The last result with this target, as the map built from the list holds it. */
  function LastFor(rs: seq<JudgeResult>, target: string): Option<JudgeResult> {
    if rs == [] then None
    else if rs[|rs| - 1].target == target then Some(rs[|rs| - 1])
    else LastFor(rs[..|rs| - 1], target)
  }

  method MergeCompileAndExecuteResult(compiled: seq<JudgeResult>, executed: seq<JudgeResult>)
    returns (results: seq<JudgeResult>)
    ensures |results| == |executed|
    ensures forall k :: 0 <= k < |executed| ==> results[k] == Merged(LastFor(compiled, executed[k].target), executed[k])
  {
    var compileMap: map<string, JudgeResult> := map[];
    for j := 0 to |compiled|
      invariant forall t :: LastFor(compiled[..j], t) == if t in compileMap then Some(compileMap[t]) else None
    {
      compileMap := compileMap[compiled[j].target := compiled[j]];
      assert compiled[..j + 1][..j] == compiled[..j];
    }
    assert compiled[..|compiled|] == compiled;
    results := [];
    for k := 0 to |executed|
      invariant |results| == k
      invariant forall j :: 0 <= j < k ==> results[j] == Merged(LastFor(compiled, executed[j].target), executed[j])
    {
      var e := executed[k];
      var ok := e.target in compileMap;
      var result: JudgeResult;
      if ok && compileMap[e.target].status == SUCCESS && e.status == SUCCESS {
        result := JudgeResult(e.target, SUCCESS, ReadyForScoring);
      } else if !ok {
        result := JudgeResult(e.target, BLANK, MissingCompileResult);
      } else if compileMap[e.target].status != SUCCESS {
        result := JudgeResult(e.target, compileMap[e.target].status, CompileFailed(compileMap[e.target].result));
      } else {
        result := JudgeResult(e.target, e.status, ExecuteFailed(e.result));
      }
      results := results + [result];
    }
  }

  method RunScore(merged: seq<JudgeResult>, runs: seq<Outcome>) returns (results: seq<JudgeResult>)
    requires |runs| == |merged|
    ensures |results| == |merged| && forall k :: 0 <= k < |merged| ==> results[k] == Scored(merged[k], runs[k])
  {
    results := [];
    for k := 0 to |merged|
      invariant |results| == k && forall j :: 0 <= j < k ==> results[j] == Scored(merged[j], runs[j])
    {
      if merged[k].status != SUCCESS {
        results := results + [merged[k]];
      } else {
        var status := if runs[k].failed then FAILED else SUCCESS;
        results := results + [JudgeResult(merged[k].target, status, Output(runs[k].out))];
      }
    }
  }

  /** The verdict on one target from its three runs: that of the first stage that fails. */
  function Verdict(compile: Outcome, execute: Outcome, score: Outcome): Status {
    if compile.failed then COMPILE_ERROR
    else if execute.failed && !Contains(execute.out, STATUS_ONE) then
      if HasCore(execute.out) && Contains(execute.out, STATUS_ANY) then RUNTIME_ERROR else FAILED
    else if score.failed then FAILED
    else SUCCESS
  }

  /** Which of the failures it is: a runtime error is a failed execution that did not print exit status 1, but some
      exit status and a crash. */
  lemma FailureExactly(compile: Outcome, execute: Outcome, score: Outcome)
    ensures var v := Verdict(compile, execute, score);
      && (v == COMPILE_ERROR <==> compile.failed)
      && (v == RUNTIME_ERROR <==>
            && !compile.failed && execute.failed
            && !Contains(execute.out, "Exited with error status 1")
            && Contains(execute.out, "Exited with error status")
            && (Contains(execute.out, "core dumped") || Contains(execute.out, "Illegal instruction") ||
                Contains(execute.out, "Segmentation fault") || Contains(execute.out, "Aborted")))
      && v != BLANK
  {
  }

  /** The text stored with a verdict: what the stage that failed printed, or else what scoring printed. */
  predicate Shows(r: JudgeResult, compile: Outcome, execute: Outcome, score: Outcome) {
    && (r.status == COMPILE_ERROR ==> r.result == CompileFailed(Output(compile.out)))
    && (r.status == RUNTIME_ERROR ==> r.result == ExecuteFailed(Crashed(execute.out)))
    && (r.status == FAILED && execute.failed && !Contains(execute.out, STATUS_ONE) ==>
          r.result == ExecuteFailed(Output(execute.out)))
    && (r.status == FAILED && (!execute.failed || Contains(execute.out, STATUS_ONE)) ==>
          r.result == Output(score.out))
    && (r.status == SUCCESS ==> r.result == Output(score.out))
  }

  /** The last place of a target in the list. */
  function LastAt(targets: seq<string>, t: string): (i: nat)
    requires t in targets
    ensures i < |targets| && targets[i] == t && forall j :: i < j < |targets| ==> targets[j] != t
  {
    var n := |targets| - 1;
    if targets[n] == t then n else LastAt(targets[..n], t)
  }

  lemma {:induction false} LastForAt(rs: seq<JudgeResult>, targets: seq<string>, t: string)
    requires |rs| == |targets| && t in targets && forall k :: 0 <= k < |rs| ==> rs[k].target == targets[k]
    ensures LastFor(rs, t) == Some(rs[LastAt(targets, t)])
  {
    var n := |rs| - 1;
    if targets[n] != t {
      LastForAt(rs[..n], targets[..n], t);
    }
  }

  /** One target through its stages, `last` being the compile run that stands in the map for it. */
  lemma OneTarget(t: string, compile: Outcome, last: Outcome, execute: Outcome, score: Outcome)
    ensures var executed := Executed(Compiled(t, compile), execute);
      var scored := Scored(Merged(Some(Compiled(t, last)), executed), score);
      && executed.target == scored.target == t && executed.result != CompileNotSuccess
      && scored.status == Verdict(last, execute, score) && Shows(scored, last, execute, score)
      && scored.result != MissingCompileResult
  {
  }

  /** On whatever list: the last compile run of a target gives it the verdict of its own compile run exactly when
      both failed or neither did. */
  lemma RepeatedTarget(targets: seq<string>, compiles: seq<Outcome>, k: nat, execute: Outcome, score: Outcome)
    requires |compiles| == |targets| && k < |targets|
    ensures var last := compiles[LastAt(targets, targets[k])];
      Verdict(last, execute, score) == Verdict(compiles[k], execute, score) <==> last.failed == compiles[k].failed
  {
  }

  /** The four stages together: the same targets in the same order, each with the verdict of its first failing stage,
      where a repeated target is taken to have compiled as it did last. That is the verdict of its own runs exactly
      when those two compile runs agree. No target misses its compile result, and compile failures are executed all
      the same. */
  method JudgeTargets(targets: seq<string>, compiles: seq<Outcome>, executes: seq<Outcome>, scores: seq<Outcome>)
    returns (executed: seq<JudgeResult>, results: seq<JudgeResult>)
    requires |compiles| == |executes| == |scores| == |targets|
    ensures |results| == |executed| == |targets|
    ensures forall k :: 0 <= k < |targets| ==> results[k].target == executed[k].target == targets[k]
    ensures forall k :: 0 <= k < |targets| ==>
      results[k].status == Verdict(compiles[LastAt(targets, targets[k])], executes[k], scores[k])
    ensures forall k :: 0 <= k < |targets| ==>
      Shows(results[k], compiles[LastAt(targets, targets[k])], executes[k], scores[k])
    ensures forall k :: 0 <= k < |targets| ==>
      (results[k].status == Verdict(compiles[k], executes[k], scores[k])
       <==> compiles[LastAt(targets, targets[k])].failed == compiles[k].failed)
    ensures forall k :: 0 <= k < |targets| ==>
      results[k].result != MissingCompileResult && executed[k].result != CompileNotSuccess
  {
    hide Compiled, Executed, Merged, Scored, Verdict, Shows;
    var compiled := RunCompile(targets, compiles);
    executed := RunExecute(compiled, executes);
    var merged := MergeCompileAndExecuteResult(compiled, executed);
    results := RunScore(merged, scores);
    forall k | 0 <= k < |targets|
      ensures results[k].target == executed[k].target == targets[k]
      ensures results[k].status == Verdict(compiles[LastAt(targets, targets[k])], executes[k], scores[k])
      ensures Shows(results[k], compiles[LastAt(targets, targets[k])], executes[k], scores[k])
      ensures results[k].status == Verdict(compiles[k], executes[k], scores[k])
              <==> compiles[LastAt(targets, targets[k])].failed == compiles[k].failed
      ensures results[k].result != MissingCompileResult && executed[k].result != CompileNotSuccess
    {
      var last := LastAt(targets, targets[k]);
      CompiledTargets(targets, compiles, compiled);
      LastForAt(compiled, targets, targets[k]);
      OneTarget(targets[k], compiles[k], compiles[last], executes[k], scores[k]);
      RepeatedTarget(targets, compiles, k, executes[k], scores[k]);
    }
  }

  lemma CompiledTargets(targets: seq<string>, compiles: seq<Outcome>, compiled: seq<JudgeResult>)
    requires |compiles| == |compiled| == |targets|
    requires forall k :: 0 <= k < |targets| ==> compiled[k] == Compiled(targets[k], compiles[k])
    ensures forall k :: 0 <= k < |targets| ==> compiled[k].target == targets[k]
  {
  }

  /** Without a repetition every target gets the verdict of its own runs. */
  lemma DistinctTargets(targets: seq<string>, k: nat)
    requires k < |targets| && forall j :: 0 <= j < |targets| && j != k ==> targets[j] != targets[k]
    ensures LastAt(targets, targets[k]) == k
  {
  }

  /** A target is SUCCESS exactly when it compiled, ran or printed exit status 1, and scored. */
  lemma SuccessExactly(compile: Outcome, execute: Outcome, score: Outcome)
    ensures Verdict(compile, execute, score) == SUCCESS <==>
      !compile.failed && (!execute.failed || Contains(execute.out, STATUS_ONE)) && !score.failed
  {
  }

  /** The line of every exit status whose numeral starts with 1 contains the text searched for: it counts as executed,
      whatever else was printed. */
  lemma SignalsCountAsExecuted(before: string, n: nat, after: string, c: JudgeResult)
    requires Decimal(n)[0] == '1' && c.status != FAILED
    ensures Executed(c, Outcome(true, before + ExitLine(n) + after)).status == SUCCESS
  {
    var out := before + ExitLine(n) + after;
    assert out[|before|..|before| + |STATUS_ONE|] == STATUS_ONE;
    assert At(out, STATUS_ONE, |before|);
  }

  /** Not only 1 itself. */
  lemma {:induction false} StartsWithOne(n: nat)
    ensures 10 <= n < 20 || 100 <= n < 200 ==> Decimal(n)[0] == '1'
  {
    if n >= 100 {
      assert n / 10 / 10 == n / 100;
      assert Decimal(n)[0] == Decimal(n / 10)[0] == Decimal(n / 100)[0];
    }
  }

  /** Killed by a signal, the shell exits with 128 and the signal's number. */
  lemma KilledBySignal(before: string, signal: nat, after: string, c: JudgeResult)
    requires 1 <= signal < 72 && c.status != FAILED
    ensures Executed(c, Outcome(true, before + ExitLine(128 + signal) + after)).status == SUCCESS
  {
    StartsWithOne(128 + signal);
    SignalsCountAsExecuted(before, 128 + signal, after, c);
  }

  /** The line isolate prints for exit status n. */
  function ExitLine(n: nat): string { STATUS_ANY + " " + Decimal(n) }

  lemma NoCapital(n: nat, i: nat)
    requires 0 < i < |ExitLine(n)|
    ensures ExitLine(n)[i] != 'E'
  {
    var s := ExitLine(n);
    if i < |STATUS_ANY| {
      assert s[i] == STATUS_ANY[i];
      assert STATUS_ANY[1..] == "xited with error status";
      assert STATUS_ANY[i] == STATUS_ANY[1..][i - 1];
      assert forall k :: 0 <= k < |STATUS_ANY| - 1 ==> "xited with error status"[k] != 'E';
    } else if i > |STATUS_ANY| {
      assert s[i] == Decimal(n)[i - |STATUS_ANY| - 1];
      assert IsDigit(s[i]);
    }
  }

  /** The line alone counts as executed exactly when the status starts with the digit 1. */
  lemma ExitLineCounts(n: nat, c: JudgeResult)
    requires c.status != FAILED
    ensures Contains(ExitLine(n), STATUS_ONE) <==> Decimal(n)[0] == '1'
    ensures Decimal(n)[0] == '1' ==> Executed(c, Outcome(true, ExitLine(n))).status == SUCCESS
    ensures Decimal(n)[0] != '1' ==> Executed(c, Outcome(true, ExitLine(n))).status != SUCCESS
  {
    var s := ExitLine(n);
    assert s[|STATUS_ANY| + 1] == Decimal(n)[0];
    if Decimal(n)[0] == '1' {
      assert s[..|STATUS_ONE|] == STATUS_ONE;
      assert At(s, STATUS_ONE, 0);
    } else {
      forall i | 0 <= i <= |s| - |STATUS_ONE| ensures !At(s, STATUS_ONE, i) {
        if i > 0 {
          NoCapital(n, i);
          assert s[i..i + |STATUS_ONE|][0] != STATUS_ONE[0];
        } else {
          assert s[i..i + |STATUS_ONE|][|STATUS_ANY| + 1] != STATUS_ONE[|STATUS_ANY| + 1];
        }
      }
    }
  }

  /** "a", "a", the second failing to compile: both are compile errors, although the first ran and scored. */
  lemma RepeatedTargetExample(ok: Outcome, bad: Outcome)
    requires !ok.failed && bad.failed
    ensures var targets, compiles := ["a", "a"], [ok, bad];
      Verdict(compiles[0], ok, ok) == SUCCESS && Verdict(compiles[LastAt(targets, targets[0])], ok, ok) == COMPILE_ERROR
  {
  }
}
