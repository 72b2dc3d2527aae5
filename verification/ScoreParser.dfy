/** sandbox/grp_parser/main.go: grading a test report, and the best score kept across runs.
    Scores are real numbers; the two-decimal rounding of "%.2f" is explicit. */
module ScoreParser {
  import opened Folds

  datatype TestCase = TestCase(failures: seq<string>, errors: seq<string>)
  datatype TestSuite = TestSuite(name: string, maxScore: int, getScore: real, cases: seq<TestCase>)
  datatype Weight = Weight(suite: string, score: int)

  predicate Passes(c: TestCase) { c.failures == [] && c.errors == [] }

  predicate AllPass(cases: seq<TestCase>) { forall c :: c in cases ==> Passes(c) }

  function Passed(cases: seq<TestCase>): (n: nat)
    ensures n <= |cases|
    ensures n == |cases| <==> AllPass(cases)
  {
    if cases == [] then 0 else
    var n := Passed(cases[..|cases| - 1]) + if Passes(cases[|cases| - 1]) then 1 else 0;
    assert cases == cases[..|cases| - 1] + [cases[|cases| - 1]];
    n
  }

  /** The share of `score` that a suite with these cases earns. */
  function Share(cases: seq<TestCase>, score: int): real
    requires cases != []
  {
    Part(Passed(cases), |cases|, score)
  }

  function Part(p: nat, n: nat, score: int): real
    requires n > 0
  {
    (p as real / n as real) * score as real
  }

  predicate Counts(s: TestSuite, task: map<string, int>) { s.name in task && s.cases != [] }

  function Points(s: TestSuite, task: map<string, int>): real {
    if Counts(s, task) then Share(s.cases, task[s.name]) else 0.0
  }

  function Graded(s: TestSuite, task: map<string, int>): TestSuite {
    if Counts(s, task) then s.(maxScore := task[s.name], getScore := Share(s.cases, task[s.name])) else s
  }

  function GradedAll(suites: seq<TestSuite>, task: map<string, int>): seq<TestSuite> {
    seq(|suites|, i requires 0 <= i < |suites| => Graded(suites[i], task))
  }

  function Total(suites: seq<TestSuite>, task: map<string, int>): real {
    if suites == [] then 0.0 else Total(suites[..|suites| - 1], task) + Points(suites[|suites| - 1], task)
  }

  /** parseScore: a later entry for the same suite replaces an earlier one. */
  function Task(weights: seq<Weight>): map<string, int> {
    if weights == [] then map[] else
    var w := weights[|weights| - 1];
    Task(weights[..|weights| - 1])[w.suite := w.score]
  }

  // ------------------------------------------------- the grading, in plain counts

  /** The cases without a failure or an error, by place. */
  function PassingCases(cases: seq<TestCase>): set<nat> {
    set k: nat | k < |cases| && cases[k].failures == [] && cases[k].errors == []
  }

  lemma {:induction false} PassedAreCounted(cases: seq<TestCase>)
    ensures Passed(cases) == |PassingCases(cases)|
  {
    if cases != [] {
      var n := |cases| - 1;
      PassedAreCounted(cases[..n]);
      hide Passed, AllPass;
      OneMoreCase(cases);
    }
  }

  lemma OneMoreCase(cases: seq<TestCase>)
    requires cases != []
    ensures var n := |cases| - 1;
      |PassingCases(cases)| == |PassingCases(cases[..n])| + if Passes(cases[n]) then 1 else 0
  {
    var n := |cases| - 1;
    var before := PassingCases(cases[..n]);
    assert forall k :: k in before <==> 0 <= k < n && cases[k].failures == [] && cases[k].errors == [];
    if Passes(cases[n]) {
      assert PassingCases(cases) == before + {n} && n !in before;
    } else {
      assert PassingCases(cases) == before;
    }
  }

  lemma PartTimes(p: nat, n: nat, score: int)
    requires n > 0
    ensures Part(p, n, score) * n as real == p as real * score as real
  {
    var f := p as real / n as real;
    assert f * n as real == p as real;
    assert Part(p, n, score) * n as real == f * n as real * score as real;
  }

  /** A suite's points are to its score as its passing cases to all its cases. */
  lemma Proportion(cases: seq<TestCase>, score: int)
    requires cases != []
    ensures Share(cases, score) * |cases| as real == |PassingCases(cases)| as real * score as real
  {
    hide Passed, PassingCases, Part;
    PassedAreCounted(cases);
    PartTimes(Passed(cases), |cases|, score);
  }

  /** So with some cases that pass and some that fail or err, whatever the order. */
  lemma GoodAndBad(good: seq<TestCase>, bad: seq<TestCase>, cases: seq<TestCase>, score: int)
    requires forall c :: c in good ==> c.failures == [] && c.errors == []
    requires forall c :: c in bad ==> c.failures != [] || c.errors != []
    requires cases != [] && multiset(cases) == multiset(good + bad)
    ensures Share(cases, score) * |cases| as real == |good| as real * score as real
  {
    hide Passed, Part;
    GoodCount(good, bad, cases);
    PartTimes(|good|, |cases|, score);
  }

  lemma GoodCount(good: seq<TestCase>, bad: seq<TestCase>, cases: seq<TestCase>)
    requires forall c :: c in good ==> c.failures == [] && c.errors == []
    requires forall c :: c in bad ==> c.failures != [] || c.errors != []
    requires multiset(cases) == multiset(good + bad)
    ensures Passed(cases) == |good| && |cases| == |good| + |bad|
  {
    GoodBeforeBad(good, bad);
    SameCases(cases, good + bad);
  }

  lemma {:induction false} GoodBeforeBad(good: seq<TestCase>, bad: seq<TestCase>)
    requires forall c :: c in good ==> c.failures == [] && c.errors == []
    requires forall c :: c in bad ==> c.failures != [] || c.errors != []
    ensures Passed(good + bad) == |good|
  {
    if bad == [] {
      assert good + bad == good;
    } else {
      var n := |bad| - 1;
      GoodBeforeBad(good, bad[..n]);
      assert (good + bad)[..|good + bad| - 1] == good + bad[..n];
      assert (good + bad)[|good + bad| - 1] == bad[n] && bad[n] in bad;
    }
  }

  lemma {:induction false} PassedConcat(a: seq<TestCase>, b: seq<TestCase>)
    ensures Passed(a + b) == Passed(a) + Passed(b)
  {
    hide AllPass, Passes;
    if b == [] {
      assert a + b == a;
    } else {
      var n := |b| - 1;
      PassedConcat(a, b[..n]);
      assert (a + b)[..|a + b| - 1] == a + b[..n];
    }
  }

  lemma PassedOne(c: TestCase)
    ensures Passed([c]) == if Passes(c) then 1 else 0
  {
    hide AllPass, Passes;
    assert [c][..0] == [];
  }

  lemma PassedAround(a: seq<TestCase>, c: TestCase, b: seq<TestCase>)
    ensures Passed(a + [c] + b) == Passed(a + b) + if Passes(c) then 1 else 0
  {
    hide AllPass, Passes, Passed;
    PassedConcat(a + [c], b);
    PassedConcat(a, [c]);
    PassedConcat(a, b);
    PassedOne(c);
  }

  /** The last of one list, somewhere in a rearrangement of it. */
  lemma WithoutOne<T>(a: seq<T>, b: seq<T>) returns (p: seq<T>, r: seq<T>)
    requires a != [] && multiset(a) == multiset(b)
    ensures b == p + [a[|a| - 1]] + r && multiset(a[..|a| - 1]) == multiset(p + r)
  {
    var n := |a| - 1;
    assert a[n] in multiset(a);
    var i :| 0 <= i < |b| && b[i] == a[n];
    p, r := b[..i], b[i + 1..];
    Apart(a, n);
    Apart(b, i);
    assert a[..n] + a[n + 1..] == a[..n];
    Cancel(multiset(a[..n]), multiset(p + r), multiset{a[n]});
  }

  lemma Apart<T>(q: seq<T>, i: nat)
    requires i < |q|
    ensures multiset(q) == multiset(q[..i] + q[i + 1..]) + multiset{q[i]}
  {
    assert q == q[..i] + [q[i]] + q[i + 1..];
  }

  lemma Cancel<T>(a: multiset<T>, b: multiset<T>, x: multiset<T>)
    requires a + x == b + x
    ensures a == b
  {
    assert (a + x) - x == a && (b + x) - x == b;
  }

  lemma NoneLeft<T>(b: seq<T>)
    requires multiset(b) == multiset{}
    ensures b == []
  {
    assert |multiset(b)| == |b|;
  }

  lemma PassedLast(cases: seq<TestCase>)
    requires cases != []
    ensures Passed(cases) == Passed(cases[..|cases| - 1]) + if Passes(cases[|cases| - 1]) then 1 else 0
  {
  }

  /** The order of the cases does not matter. */
  lemma {:induction false} SameCases(a: seq<TestCase>, b: seq<TestCase>)
    requires multiset(a) == multiset(b)
    ensures Passed(a) == Passed(b) && |a| == |b|
    decreases |a|
  {
    if a == [] {
      NoneLeft(b);
    } else {
      var n := |a| - 1;
      var p, r := WithoutOne(a, b);
      PassedLast(a);
      PassedAround(p, a[n], r);
      SameCases(a[..n], p + r);
      hide Passes, AllPass, Passed;
    }
  }

  /** The points of the suites that count. */
  function Earnings(suites: seq<TestSuite>, task: map<string, int>): real {
    if suites == [] then 0.0 else
    var s := suites[|suites| - 1];
    Earnings(suites[..|suites| - 1], task) + if s.name in task && s.cases != [] then s.getScore else 0.0
  }

  lemma {:induction false} TotalIsEarnings(suites: seq<TestSuite>, task: map<string, int>)
    ensures Earnings(GradedAll(suites, task), task) == Total(suites, task)
  {
    if suites != [] {
      var n := |suites| - 1;
      TotalIsEarnings(suites[..n], task);
      assert GradedAll(suites, task)[..n] == GradedAll(suites[..n], task);
    }
  }

  /** A suite with a configured name and cases gets points that are to its maximum as its passing cases to all its
      cases; any other stays as it is. */
  ghost predicate InProportion(was: TestSuite, s: TestSuite, task: map<string, int>) {
    if was.name in task && was.cases != [] then
      && s.name == was.name && s.cases == was.cases && s.maxScore == task[was.name]
      && s.getScore * |was.cases| as real == |PassingCases(was.cases)| as real * task[was.name] as real
    else s == was
  }

  lemma GradedInProportion(s: TestSuite, task: map<string, int>)
    ensures InProportion(s, Graded(s, task), task)
  {
    if s.name in task && s.cases != [] { Proportion(s.cases, task[s.name]); }
    hide Share, PassingCases;
  }

  lemma AllInProportion(suites: seq<TestSuite>, task: map<string, int>)
    ensures |GradedAll(suites, task)| == |suites|
    ensures forall i :: 0 <= i < |suites| ==> InProportion(suites[i], GradedAll(suites, task)[i], task)
  {
    forall i | 0 <= i < |suites| {
      GradedInProportion(suites[i], task);
    }
    hide Graded, InProportion;
  }

  class JSONParser {
    const scoreFile: seq<Weight>
    var inputFile: seq<TestSuite>
    var score: real
    var task: map<string, int>

    constructor (input: seq<TestSuite>, weights: seq<Weight>)
      ensures inputFile == input && scoreFile == weights && score == 0.0 && task == Task(weights)
    {
      scoreFile, inputFile, score, task := weights, input, 0.0, map[];
      new;
      ParseScore();
    }

    method ParseScore()
      requires task == map[]
      modifies this`task
      ensures task == Task(scoreFile)
      ensures forall x :: x in task <==> exists i :: 0 <= i < |scoreFile| && scoreFile[i].suite == x
      ensures forall i :: 0 <= i < |scoreFile| ==>
                (forall j :: i < j < |scoreFile| ==> scoreFile[j].suite != scoreFile[i].suite) ==>
                  scoreFile[i].suite in task && task[scoreFile[i].suite] == scoreFile[i].score
    {
      for i := 0 to |scoreFile|
        invariant task == Task(scoreFile[..i])
      {
        task := task[scoreFile[i].suite := scoreFile[i].score];
        assert scoreFile[..i + 1][..i] == scoreFile[..i];
      }
      assert scoreFile[..|scoreFile|] == scoreFile;
      hide Task;
      TaskKnows(scoreFile);
      LastWeights(scoreFile);
    }

    /** Every suite with a configured name and cases is graded by itself, its points to its maximum as its passing cases
        to all; other suites stay as they are, and the running score grows by the sum of the points. */
    method Parse()
      modifies this`inputFile, this`score
      ensures inputFile == GradedAll(old(inputFile), task)
      ensures score == old(score) + Total(old(inputFile), task)
      ensures score == old(score) + Earnings(inputFile, task)
      ensures |inputFile| == |old(inputFile)|
      ensures forall i :: 0 <= i < |inputFile| ==> InProportion(old(inputFile)[i], inputFile[i], task)
    {
      ghost var input := inputFile;
      GradeSuites();
      hide InProportion, GradedAll, Total, Earnings;
      TotalIsEarnings(input, task);
      AllInProportion(input, task);
    }

    method GradeSuites()
      modifies this`inputFile, this`score
      ensures inputFile == GradedAll(old(inputFile), task)
      ensures score == old(score) + Total(old(inputFile), task)
    {
      hide Part, Passed;
      ghost var input, start := inputFile, score;
      for i := 0 to |inputFile|
        invariant |inputFile| == |input|
        invariant forall k :: 0 <= k < i ==> inputFile[k] == Graded(input[k], task)
        invariant forall k :: i <= k < |input| ==> inputFile[k] == input[k]
        invariant score == start + Total(input[..i], task)
      {
        var suite := inputFile[i];
        var ac, wa := CountCases(suite.cases);
        if suite.name in task && ac + wa > 0 {
          var maxScore := task[suite.name];
          var got := Part(ac, ac + wa, maxScore);
          inputFile := inputFile[i := suite.(maxScore := maxScore, getScore := got)];
          score := score + got;
        }
        assert input[..i + 1][..i] == input[..i];
      }
      assert input[..|input|] == input;
    }

    method CountCases(cases: seq<TestCase>) returns (ac: nat, wa: nat)
      ensures ac == Passed(cases) && ac + wa == |cases|
    {
      ac, wa := 0, 0;
      for j := 0 to |cases|
        invariant ac == Passed(cases[..j]) && ac + wa == j
      {
        if |cases[j].failures| > 0 || |cases[j].errors| > 0 {
          wa := wa + 1;
        } else {
          ac := ac + 1;
        }
        assert cases[..j + 1][..j] == cases[..j];
      }
      assert cases[..|cases|] == cases;
    }
  }

  // ------------------------------------------------- the total against the configured scores

  lemma Scaled(f: real, x: real)
    requires 0.0 <= f <= 1.0 && x >= 0.0
    ensures 0.0 <= f * x <= x
    ensures f * x == x <==> f == 1.0 || x == 0.0
  {
    if f < 1.0 && x > 0.0 { assert (1.0 - f) * x > 0.0; }
  }

  lemma Fraction(p: nat, n: nat, score: int)
    requires p <= n && n > 0 && score >= 0
    ensures 0.0 <= Part(p, n, score) <= score as real
    ensures Part(p, n, score) == score as real <==> p == n || score == 0
  {
    var f := p as real / n as real;
    assert f * n as real == p as real;
    assert 0.0 <= f <= 1.0;
    assert f == 1.0 <==> p == n;
    Scaled(f, score as real);
  }

  /** A suite earns between nothing and its maximum, and the maximum exactly when all cases pass. */
  lemma ShareInRange(cases: seq<TestCase>, score: int)
    requires cases != [] && score >= 0
    ensures 0.0 <= Share(cases, score) <= score as real
    ensures Share(cases, score) == score as real <==> score == 0 || AllPass(cases)
  {
    var p := Passed(cases);
    hide Passed, AllPass, Part;
    Fraction(p, |cases|, score);
  }

  predicate DistinctWeights(ws: seq<Weight>) {
    forall i, j :: 0 <= i < j < |ws| ==> ws[i].suite != ws[j].suite
  }

  predicate DistinctSuites(ss: seq<TestSuite>) {
    forall i, j :: 0 <= i < j < |ss| ==> ss[i].name != ss[j].name
  }

  /** What a report earns for one configured suite. */
  function Earned(suites: seq<TestSuite>, w: Weight): real {
    if suites == [] then 0.0 else
    var s := suites[|suites| - 1];
    Earned(suites[..|suites| - 1], w) + if s.name == w.suite && s.cases != [] then Share(s.cases, w.score) else 0.0
  }

  function EarnedAll(suites: seq<TestSuite>, ws: seq<Weight>): real {
    if ws == [] then 0.0 else EarnedAll(suites, ws[..|ws| - 1]) + Earned(suites, ws[|ws| - 1])
  }

  function Configured(ws: seq<Weight>): int {
    if ws == [] then 0 else Configured(ws[..|ws| - 1]) + ws[|ws| - 1].score
  }

  lemma {:induction false} TaskKnows(ws: seq<Weight>)
    ensures forall x :: x in Task(ws) <==> exists i :: 0 <= i < |ws| && ws[i].suite == x
    ensures DistinctWeights(ws) ==> forall i :: 0 <= i < |ws| ==> Task(ws)[ws[i].suite] == ws[i].score
  {
    if ws != [] { TaskKnows(ws[..|ws| - 1]); }
  }

  /** A suite's weight is the last one configured for it. */
  lemma {:induction false} LastWeights(ws: seq<Weight>)
    ensures forall i :: 0 <= i < |ws| ==>
              (forall j :: i < j < |ws| ==> ws[j].suite != ws[i].suite) ==>
                ws[i].suite in Task(ws) && Task(ws)[ws[i].suite] == ws[i].score
  {
    forall i | 0 <= i < |ws| && (forall j :: i < j < |ws| ==> ws[j].suite != ws[i].suite)
      ensures ws[i].suite in Task(ws) && Task(ws)[ws[i].suite] == ws[i].score
    {
      LastWeight(ws, i);
    }
  }

  lemma {:induction false} LastWeight(ws: seq<Weight>, i: nat)
    requires i < |ws| && forall j :: i < j < |ws| ==> ws[j].suite != ws[i].suite
    ensures ws[i].suite in Task(ws) && Task(ws)[ws[i].suite] == ws[i].score
  {
    if i < |ws| - 1 {
      LastWeight(ws[..|ws| - 1], i);
    }
  }

  /** One more suite adds its points to exactly one configured entry, or to none. */
  lemma {:induction false} OneMoreSuite(suites: seq<TestSuite>, s: TestSuite, ws: seq<Weight>)
    requires DistinctWeights(ws)
    ensures EarnedAll(suites + [s], ws) == EarnedAll(suites, ws) + Points(s, Task(ws))
  {
    assert (suites + [s])[..|suites|] == suites;
    if ws != [] {
      var rest, w := ws[..|ws| - 1], ws[|ws| - 1];
      OneMoreSuite(suites, s, rest);
      TaskKnows(rest);
      assert Earned(suites + [s], w) == Earned(suites, w) + if s.name == w.suite && s.cases != []
        then Share(s.cases, w.score) else 0.0;
      assert w.suite !in Task(rest);
      assert Task(ws) == Task(rest)[w.suite := w.score];
    }
  }

  /** The total, summed over the report, is the total summed over the configuration. */
  lemma {:induction false} TotalByWeights(suites: seq<TestSuite>, ws: seq<Weight>)
    requires DistinctWeights(ws)
    ensures Total(suites, Task(ws)) == EarnedAll(suites, ws)
  {
    if suites == [] {
      NothingEarned(ws);
    } else {
      var rest, s := suites[..|suites| - 1], suites[|suites| - 1];
      TotalByWeights(rest, ws);
      OneMoreSuite(rest, s, ws);
      assert suites == rest + [s];
    }
  }

  lemma {:induction false} NothingEarned(ws: seq<Weight>)
    ensures EarnedAll([], ws) == 0.0
  {
    if ws != [] { NothingEarned(ws[..|ws| - 1]); }
  }

  /** The suite a configured entry asks for is in the report, not empty, and passes. */
  predicate FullMarks(suites: seq<TestSuite>, w: Weight) {
    exists i :: 0 <= i < |suites| && suites[i].name == w.suite && suites[i].cases != [] && AllPass(suites[i].cases)
  }

  lemma {:induction false} NoSuchSuite(suites: seq<TestSuite>, w: Weight)
    requires forall i :: 0 <= i < |suites| ==> suites[i].name != w.suite
    ensures Earned(suites, w) == 0.0
  {
    if suites != [] { NoSuchSuite(suites[..|suites| - 1], w); }
  }

  lemma {:induction false} EarnedInRange(suites: seq<TestSuite>, w: Weight)
    requires DistinctSuites(suites) && w.score >= 0
    ensures 0.0 <= Earned(suites, w) <= w.score as real
    ensures Earned(suites, w) == w.score as real <==> w.score == 0 || FullMarks(suites, w)
  {
    if suites != [] {
      var rest, s := suites[..|suites| - 1], suites[|suites| - 1];
      if s.name == w.suite {
        NoSuchSuite(rest, w);
        if s.cases != [] { ShareInRange(s.cases, w.score); }
        assert FullMarks(suites, w) <==> s.cases != [] && AllPass(s.cases);
      } else {
        EarnedInRange(rest, w);
        assert FullMarks(suites, w) <==> FullMarks(rest, w);
      }
    }
  }

  lemma {:induction false} EarnedAllInRange(suites: seq<TestSuite>, ws: seq<Weight>)
    requires DistinctSuites(suites) && forall i :: 0 <= i < |ws| ==> ws[i].score >= 0
    ensures 0.0 <= EarnedAll(suites, ws) <= Configured(ws) as real
    ensures EarnedAll(suites, ws) == Configured(ws) as real <==>
      forall i :: 0 <= i < |ws| ==> ws[i].score == 0 || FullMarks(suites, ws[i])
  {
    if ws != [] {
      var n := |ws| - 1;
      EarnedAllInRange(suites, ws[..n]);
      EarnedInRange(suites, ws[n]);
      assert forall i :: 0 <= i < n ==> ws[..n][i] == ws[i];
    }
  }

  /** The total never exceeds the configured sum, and reaches it exactly when every positively
      weighted suite is present, not empty, and free of failures and errors. */
  lemma {:induction false} TotalAgainstConfigured(suites: seq<TestSuite>, ws: seq<Weight>)
    requires DistinctSuites(suites) && DistinctWeights(ws) && forall i :: 0 <= i < |ws| ==> ws[i].score >= 0
    ensures 0.0 <= Total(suites, Task(ws)) <= Configured(ws) as real
    ensures Total(suites, Task(ws)) == Configured(ws) as real <==>
      forall i :: 0 <= i < |ws| ==> ws[i].score > 0 ==> FullMarks(suites, ws[i])
  {
    TotalByWeights(suites, ws);
    EarnedAllInRange(suites, ws);
  }

  // ------------------------------------------------- reports that repeat a suite

  /** The nonempty suites of this name. */
  function Times(suites: seq<TestSuite>, name: string): nat {
    if suites == [] then 0 else
    var s := suites[|suites| - 1];
    Times(suites[..|suites| - 1], name) + if s.name == name && s.cases != [] then 1 else 0
  }

  /** Another outcome of the same tests. */
  predicate SameShape(a: seq<TestSuite>, b: seq<TestSuite>) {
    |a| == |b| && forall i :: 0 <= i < |a| ==> a[i].name == b[i].name && |a[i].cases| == |b[i].cases|
  }

  function Perfect(s: TestSuite): (r: TestSuite)
    ensures AllPass(r.cases) && r.name == s.name && |r.cases| == |s.cases|
  {
    s.(cases := seq(|s.cases|, _ => TestCase([], [])))
  }

  /** The outcome in which every case passes. */
  function AllPerfect(suites: seq<TestSuite>): (r: seq<TestSuite>)
    ensures SameShape(suites, r)
    ensures forall i :: 0 <= i < |r| ==> AllPass(r[i].cases)
  {
    seq(|suites|, i requires 0 <= i < |suites| => Perfect(suites[i]))
  }

  lemma ShapeFront(a: seq<TestSuite>, b: seq<TestSuite>)
    requires SameShape(a, b) && a != []
    ensures SameShape(a[..|a| - 1], b[..|b| - 1])
  {
  }

  lemma {:induction false} ShapeKeepsTimes(a: seq<TestSuite>, b: seq<TestSuite>, name: string)
    requires SameShape(a, b)
    ensures Times(a, name) == Times(b, name)
  {
    if a != [] {
      ShapeFront(a, b);
      ShapeKeepsTimes(a[..|a| - 1], b[..|b| - 1], name);
      assert a[|a| - 1].cases == [] <==> b[|b| - 1].cases == [];
    }
  }

  /** The suites of one name earn at most the configured score each, and exactly that when all cases pass. */
  lemma {:induction false} EarnedByTimes(suites: seq<TestSuite>, w: Weight)
    requires w.score >= 0
    ensures 0.0 <= Earned(suites, w) <= (Times(suites, w.suite) * w.score) as real
    ensures (forall i :: 0 <= i < |suites| ==> AllPass(suites[i].cases)) ==>
              Earned(suites, w) == (Times(suites, w.suite) * w.score) as real
  {
    if suites != [] {
      var n := |suites| - 1;
      EarnedByTimes(suites[..n], w);
      if suites[n].cases != [] { ShareInRange(suites[n].cases, w.score); }
      assert forall i :: 0 <= i < n ==> suites[..n][i] == suites[i];
      hide Share, AllPass;
      OneMore(Times(suites[..n], w.suite), w.score);
    }
  }

  lemma OneMore(n: nat, x: int)
    ensures (n + 1) * x == n * x + x
  {
  }

  lemma AboveOnce(n: nat, x: int)
    requires x >= 0
    ensures n * x <= x <==> x == 0 || n <= 1
  {
    if x > 0 && n >= 2 { assert n * x >= 2 * x; }
  }

  /** Whatever the tests' outcomes, a configured suite earns at most its score, exactly when that is 0 or the report
      has at most one nonempty suite of the name. */
  lemma SuiteWithinMaximum(suites: seq<TestSuite>, w: Weight)
    requires w.score >= 0
    ensures (forall b :: SameShape(suites, b) ==> Earned(b, w) <= w.score as real)
            <==> w.score == 0 || Times(suites, w.suite) <= 1
  {
    var n := Times(suites, w.suite);
    AboveOnce(n, w.score);
    forall b | SameShape(suites, b) ensures Earned(b, w) <= (n * w.score) as real {
      ShapeKeepsTimes(suites, b, w.suite);
      EarnedByTimes(b, w);
    }
    var best := AllPerfect(suites);
    ShapeKeepsTimes(suites, best, w.suite);
    EarnedByTimes(best, w);
    hide SameShape, Earned, Times;
  }

  /** The most that reports of this shape earn. */
  function MostEarned(suites: seq<TestSuite>, ws: seq<Weight>): int {
    if ws == [] then 0 else
    MostEarned(suites, ws[..|ws| - 1]) + Times(suites, ws[|ws| - 1].suite) * ws[|ws| - 1].score
  }

  lemma {:induction false} EarnedAllByTimes(suites: seq<TestSuite>, ws: seq<Weight>)
    requires forall i :: 0 <= i < |ws| ==> ws[i].score >= 0
    ensures EarnedAll(suites, ws) <= MostEarned(suites, ws) as real
    ensures (forall i :: 0 <= i < |suites| ==> AllPass(suites[i].cases)) ==>
              EarnedAll(suites, ws) == MostEarned(suites, ws) as real
  {
    if ws != [] {
      var n := |ws| - 1;
      EarnedAllByTimes(suites, ws[..n]);
      EarnedByTimes(suites, ws[n]);
      hide AllPass, Earned, Times;
    }
  }

  lemma {:induction false} ShapeKeepsMost(a: seq<TestSuite>, b: seq<TestSuite>, ws: seq<Weight>)
    requires SameShape(a, b)
    ensures MostEarned(a, ws) == MostEarned(b, ws)
  {
    if ws != [] {
      ShapeKeepsMost(a, b, ws[..|ws| - 1]);
      ShapeKeepsTimes(a, b, ws[|ws| - 1].suite);
    }
  }

  /** The same by the report: every nonempty suite with a score counts it. */
  function MostPoints(suites: seq<TestSuite>, task: map<string, int>): int {
    if suites == [] then 0 else
    var s := suites[|suites| - 1];
    MostPoints(suites[..|suites| - 1], task) + if Counts(s, task) then task[s.name] else 0
  }

  lemma {:induction false} TotalAtMost(a: seq<TestSuite>, b: seq<TestSuite>, task: map<string, int>)
    requires SameShape(a, b) && forall x :: x in task ==> task[x] >= 0
    ensures Total(b, task) <= MostPoints(a, task) as real
    ensures (forall i :: 0 <= i < |b| ==> AllPass(b[i].cases)) ==> Total(b, task) == MostPoints(a, task) as real
  {
    if a != [] {
      var n := |a| - 1;
      ShapeFront(a, b);
      TotalAtMost(a[..n], b[..n], task);
      assert Counts(b[n], task) <==> Counts(a[n], task);
      if Counts(b[n], task) { ShareInRange(b[n].cases, task[b[n].name]); }
      hide Share, AllPass;
    }
  }

  lemma {:induction false} TaskNonNegative(ws: seq<Weight>)
    requires forall i :: 0 <= i < |ws| ==> ws[i].score >= 0
    ensures forall x :: x in Task(ws) ==> Task(ws)[x] >= 0
  {
    if ws != [] {
      TaskNonNegative(ws[..|ws| - 1]);
    }
  }

  /** Whatever the tests' outcomes, the total stays within the configured sum, exactly when the scores counted once
      for each nonempty suite of the report do. */
  lemma TotalWithinConfigured(suites: seq<TestSuite>, ws: seq<Weight>)
    requires forall i :: 0 <= i < |ws| ==> ws[i].score >= 0
    ensures (forall b :: SameShape(suites, b) ==> Total(b, Task(ws)) <= Configured(ws) as real)
            <==> MostPoints(suites, Task(ws)) <= Configured(ws)
    ensures DistinctWeights(ws) ==> MostPoints(suites, Task(ws)) == MostEarned(suites, ws)
  {
    hide SameShape, MostEarned, MostPoints, EarnedAll, Total, Task, Configured, AllPass;
    TaskNonNegative(ws);
    forall b | SameShape(suites, b) ensures Total(b, Task(ws)) <= MostPoints(suites, Task(ws)) as real {
      TotalAtMost(suites, b, Task(ws));
    }
    var best := AllPerfect(suites);
    TotalAtMost(suites, best, Task(ws));
    if DistinctWeights(ws) {
      ShapeKeepsMost(suites, best, ws);
      EarnedAllByTimes(best, ws);
      TotalByWeights(best, ws);
    }
  }

  /** One suite, listed twice and passing, earns twice its score. */
  lemma RepeatedSuiteExceeds()
    ensures var s := TestSuite("a", 0, 0.0, [TestCase([], [])]);
      Total([s, s], Task([Weight("a", 10)])) == 20.0 && Configured([Weight("a", 10)]) == 10
  {
    var s, ws := TestSuite("a", 0, 0.0, [TestCase([], [])]), [Weight("a", 10)];
    assert [s, s][..1] == [s] && [s][..0] == [] && ws[..0] == [];
    assert Task(ws) == map["a" := 10];
    assert s.cases[..0] == [];
    assert Points(s, Task(ws)) == 10.0;
    assert Total([s], Task(ws)) == 10.0;
  }

  // ------------------------------------------------- the best score across runs

  /** Hundredths, as "%.2f" prints them: to the nearest, ties to the even digit. */
  function Cents(x: real): int {
    var k := (x * 100.0).Floor;
    var rest := x * 100.0 - k as real;
    if rest < 0.5 || (rest == 0.5 && k % 2 == 0) then k else k + 1
  }

  function Round2(x: real): real { Cents(x) as real / 100.0 }

  lemma RoundsToNearest(x: real)
    ensures -0.005 <= Round2(x) - x <= 0.005
    ensures Round2(Round2(x)) == Round2(x)
    ensures Round2(x) - x == 0.005 || x - Round2(x) == 0.005 ==> Cents(x) % 2 == 0
    ensures Round2(x) == Cents(x) as real / 100.0
  {
    var c := Cents(x);
    assert Round2(x) * 100.0 == c as real;
  }

  lemma RoundMonotone(x: real, y: real)
    requires x <= y
    ensures Round2(x) <= Round2(y)
  {
    assert (x * 100.0).Floor <= (y * 100.0).Floor;
    assert Cents(x) <= Cents(y);
  }

  /** score.txt: missing, without a readable number, or holding a number. */
  datatype ScoreFile = Absent | Unreadable | Number(v: real)

  function OldScore(f: ScoreFile): real { if f.Number? then f.v else -1.0 }

  /** The two files of a box: the best score, and the report of the run that last improved it. */
  datatype Files = Files(score: ScoreFile, message: Option<nat>)

  function AfterRun(f: Files, score: real, run: nat): Files {
    if OldScore(f.score) > score then f.(score := Number(Round2(OldScore(f.score))))
    else Files(Number(Round2(score)), Some(run))
  }

  class Box {
    var scoreTxt: ScoreFile
    var messageTxt: Option<nat>

    function View(): Files
      reads this
    {
      Files(scoreTxt, messageTxt)
    }

    method WriteScore(score: real) returns (higher: bool)
      modifies this`scoreTxt
      ensures higher == (OldScore(old(scoreTxt)) <= score)
      ensures scoreTxt == Number(Round2(if higher then score else OldScore(old(scoreTxt))))
    {
      var oldScore := -1.0;
      higher := true;
      if scoreTxt.Number? {
        oldScore := scoreTxt.v;
      }
      var newScore := score;
      if oldScore > score {
        newScore := oldScore;
        higher := false;
      }
      scoreTxt := Number(Round2(newScore));
    }

    /** main after parsing: the report is copied only when the score was not beaten. */
    method Conclude(score: real, run: nat)
      modifies this
      ensures View() == AfterRun(old(View()), score, run)
    {
      var higher := WriteScore(score);
      if higher {
        messageTxt := Some(run);
      }
    }
  }

  /** Runs numbered from 0, in order. */
  function AfterRuns(f: Files, scores: seq<real>): Files {
    if scores == [] then f else AfterRun(AfterRuns(f, scores[..|scores| - 1]), scores[|scores| - 1], |scores| - 1)
  }

  function Best(base: real, scores: seq<real>): real {
    if scores == [] then base else
    var b, x := Best(base, scores[..|scores| - 1]), scores[|scores| - 1];
    if x > b then x else b
  }

  lemma {:induction false} BestIsMaximum(base: real, scores: seq<real>)
    ensures base <= Best(base, scores) && forall k :: 0 <= k < |scores| ==> scores[k] <= Best(base, scores)
    ensures Best(base, scores) == base || Best(base, scores) in scores
  {
    if scores != [] {
      var rest := scores[..|scores| - 1];
      BestIsMaximum(base, rest);
      assert forall k :: 0 <= k < |rest| ==> scores[k] == rest[k];
    }
  }

  /** Although each unrounded score is compared with a rounded one, score.txt always holds the rounding
      of the maximum of all scores so far and of what the file held before. */
  lemma {:induction false} ScoreFileHoldsBest(f: Files, scores: seq<real>)
    requires scores != []
    ensures AfterRuns(f, scores).score == Number(Round2(Best(OldScore(f.score), scores)))
  {
    var rest, x := scores[..|scores| - 1], scores[|scores| - 1];
    if rest != [] {
      ScoreFileHoldsBest(f, rest);
      var b := Best(OldScore(f.score), rest);
      RoundsToNearest(b);
      RoundsToNearest(x);
      if x <= b { RoundMonotone(x, b); } else { RoundMonotone(b, x); }
      if Round2(b) > x > b { RoundMonotone(x, Round2(b)); }
      if x >= Round2(b) { RoundMonotone(Round2(b), x); }
    }
  }

  /** In a fresh box, message.txt exists exactly when some score reached -1, and is then the report of
      a run with exactly the score in score.txt. */
  lemma {:induction false} MessageMatchesScore(scores: seq<real>)
    ensures var f := AfterRuns(Files(Absent, None), scores);
      && (f.message.Some? <==> exists k :: 0 <= k < |scores| && scores[k] >= -1.0)
      && (f.message.Some? ==> f.message.value < |scores| && f.score == Number(Round2(scores[f.message.value])))
      && (f.message.None? ==> OldScore(f.score) == -1.0)
  {
    if scores != [] {
      var rest, x := scores[..|scores| - 1], scores[|scores| - 1];
      var g := AfterRuns(Files(Absent, None), rest);
      MessageMatchesScore(rest);
      assert forall k :: 0 <= k < |rest| ==> scores[k] == rest[k];
      if g.message.Some? {
        RoundsToNearest(rest[g.message.value]);
      } else {
        RoundsToNearest(-1.0);
        assert Round2(-1.0) == -1.0;
      }
    }
  }
}
