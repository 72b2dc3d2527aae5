/** One judging goroutine of sandbox/runHandler.go, from the test script lookup to the stored score:
    what it writes to the submission's row, and its single Release. */
module JudgeRun {

  const PENDING := -3.0   // row created, waiting
  const JUDGING := -1.0
  const ABORTED := -2.0

  /** How the steps outside this program turn out. */
  datatype Fate = Fate(
    scriptFound: bool, testsCloned: bool, cancelled: bool, compileFileWritten: bool,
    hasCode: bool, parserCopied: bool, executeFileWritten: bool, scoreFileWritten: bool,
    total: real, encoded: bool, updated: bool)

  /** Every step up to the final update succeeds. */
  predicate Judged(f: Fate) {
    f.scriptFound && f.testsCloned && !f.cancelled && f.compileFileWritten && (f.hasCode ==> f.parserCopied)
    && f.executeFileWritten && f.scoreFileWritten
  }

  /** The stored score of a run; an update with a zero score leaves the column alone. */
  function FinalScore(f: Fate): real {
    if !Judged(f) then ABORTED
    else if !f.encoded then JUDGING
    else if !f.updated then ABORTED
    else if f.total == 0.0 then JUDGING
    else f.total
  }

  /** GREATEST(score, 0) of the leaderboard queries. */
  function Clamp(x: real): real { if x > 0.0 then x else 0.0 }

  /** Scores a row may still be moved away from. */
  predicate Open(score: real) { score == PENDING || score == JUDGING }

  /** The row's scores over time: each but the last was open when it was replaced, and none is 0. */
  predicate Lifecycle(scores: seq<real>) {
    && scores != [] && scores[0] == PENDING
    && (forall k :: 0 <= k < |scores| - 1 ==> Open(scores[k]))
    && (forall k :: 0 <= k < |scores| ==> scores[k] != 0.0)
  }

  class Judge {
    var score: real
    var releases: nat
    ghost var scores: seq<real>

    ghost predicate Valid()
      reads this
    {
      Lifecycle(scores) && score == scores[|scores| - 1]
    }

    constructor ()
      ensures Valid() && scores == [PENDING] && releases == 0
    {
      score, releases, scores := PENDING, 0, [PENDING];
    }

    /** Updates with a struct: zero fields are skipped. */
    method UpdateScore(x: real)
      requires Valid() && Open(score)
      modifies this`score, this`scores
      ensures Valid() && old(scores) <= scores
      ensures score == if x == 0.0 then old(score) else x
    {
      if x != 0.0 {
        score := x;
        scores := scores + [x];
      }
    }

    method Release()
      modifies this`releases
      ensures releases == old(releases) + 1
    {
      releases := releases + 1;
    }

    method RunShellCommand(f: Fate)
      requires Valid() && score == PENDING
      requires f.scriptFound && f.testsCloned
      modifies this
      ensures Valid() && score == FinalScore(f) && releases == old(releases) + 1
    {
      if f.cancelled {
        UpdateScore(ABORTED);
        Release();
        return;
      }
      UpdateScore(0.0);     // only JudgeTime is given
      UpdateScore(JUDGING);
      JudgeInBox(f);
      Release();            // deferred
    }

    method JudgeInBox(f: Fate)
      requires Valid() && score == JUDGING
      requires f.scriptFound && f.testsCloned && !f.cancelled
      modifies this`score, this`scores
      ensures Valid() && score == FinalScore(f)
    {
      if !f.compileFileWritten {
        UpdateScore(ABORTED);
        return;
      }
      if f.hasCode && !f.parserCopied {
        UpdateScore(ABORTED);
        return;
      }
      if !f.executeFileWritten {
        UpdateScore(ABORTED);
        return;
      }
      if !f.scoreFileWritten {
        UpdateScore(ABORTED);
        return;
      }
      if f.encoded {
        if f.updated {
          UpdateScore(f.total);
        } else {
          UpdateScore(ABORTED);
        }
      }
    }

    /** Whatever happens, the box is released exactly once, the row ends in its final score, and no
        score but -3 and -1 was ever overwritten. */
    method RunShellCommandByRepo(f: Fate)
      requires Valid() && score == PENDING
      modifies this
      ensures Valid() && score == FinalScore(f) && releases == old(releases) + 1
    {
      if !f.scriptFound {
        UpdateScore(ABORTED);
        Release();
        return;
      }
      if !f.testsCloned {
        UpdateScore(ABORTED);
        Release();
        return;
      }
      RunShellCommand(f);
    }
  }

  /** How a run with a non-negative total ends, by what went wrong: given up when a step before the update or the update
      itself failed, left open when there was nothing to store or a zero, which an update skips, and otherwise with the
      total. */
  lemma EndsExactly(f: Fate)
    requires f.total >= 0.0
    ensures var stepsDone := f.scriptFound && f.testsCloned && !f.cancelled && f.compileFileWritten
                             && (f.hasCode ==> f.parserCopied) && f.executeFileWritten && f.scoreFileWritten;
      && (FinalScore(f) == -2.0 <==> !stepsDone || (f.encoded && !f.updated))
      && (FinalScore(f) == -1.0 <==> stepsDone && (!f.encoded || (f.updated && f.total == 0.0)))
      && (stepsDone && f.encoded && f.updated && f.total > 0.0 ==> FinalScore(f) == f.total)
  {
  }

  /** GREATEST(score, 0) is at least 0 and the score, and one of them. */
  lemma ClampIsGreatest(x: real)
    ensures Clamp(x) >= 0.0 && Clamp(x) >= x && (Clamp(x) == 0.0 || Clamp(x) == x)
  {
  }

  /** On the leaderboard a stored score counts as the computed one when the run was judged and stored, zero included,
      and as nothing otherwise. */
  lemma StoredCountsAsComputed(f: Fate)
    ensures var stepsDone := f.scriptFound && f.testsCloned && !f.cancelled && f.compileFileWritten
                             && (f.hasCode ==> f.parserCopied) && f.executeFileWritten && f.scoreFileWritten;
      && (stepsDone && f.encoded && f.updated && f.total >= 0.0 ==> Clamp(FinalScore(f)) == f.total)
      && (!(stepsDone && f.encoded && f.updated) || f.total < 0.0 ==> Clamp(FinalScore(f)) == 0.0)
  {
  }
}
