/** The rescore handlers of handlers/score.go, which add rows to the submissions, and the judging runs that
    write to a row, as writes of LeaderboardTheorems: no such run lowers anybody's total. */
module Rescore {
  import opened Folds
  import opened JudgeRun
  import opened Leaderboard
  import opened LeaderboardTheorems

  /** A question's start and end time. */
  datatype Window = Window(start: int, end: int)

  function Row(rel: Id, createdAt: int): Submission { Submission(rel, PENDING, createdAt) }

  /** One waiting row for each relation, in order. */
  function Waiting(uqr: seq<Id>, createdAt: int): seq<Submission> {
    seq(|uqr|, i requires 0 <= i < |uqr| => Row(uqr[i], createdAt))
  }

  /** The rows whose owner's token could not be read are given up at once. */
  function Queued(uqr: seq<Id>, createdAt: int, tokens: seq<bool>): seq<Submission>
    requires |tokens| == |uqr|
  {
    seq(|uqr|, i requires 0 <= i < |uqr| =>
      if tokens[i] then Row(uqr[i], createdAt) else Row(uqr[i], createdAt).(score := ABORTED))
  }

  class SubmissionTable {
    var rows: seq<Submission>
    ghost const start: Database
    ghost var writes: seq<Write>

    ghost predicate Valid()
      reads this
    {
      Exec(start, writes) == start.(submissions := rows) && Orderly(start, writes)
    }

    constructor (ghost db: Database, given: seq<Submission>)
      requires given == db.submissions
      ensures Valid() && start == db && rows == given && writes == []
    {
      rows, start, writes := given, db, [];
    }

    method InsertRow(rel: Id, createdAt: int)
      requires Valid()
      modifies this
      ensures Valid() && old(writes) <= writes && rows == old(rows) + [Row(rel, createdAt)]
    {
      rows := rows + [Submission(rel, PENDING, createdAt)];
      ExecOne(start, writes, Insert(rel, createdAt));
      OrderlyStep(start, writes, Insert(rel, createdAt));
      writes := writes + [Insert(rel, createdAt)];
    }

    method GiveUp(row: nat)
      requires Valid() && row < |rows| && rows[row].score == PENDING
      modifies this
      ensures Valid() && old(writes) <= writes && rows == old(rows)[row := old(rows)[row].(score := ABORTED)]
    {
      rows := rows[row := rows[row].(score := ABORTED)];
      ExecOne(start, writes, Store(row, ABORTED));
      OrderlyStep(start, writes, Store(row, ABORTED));
      writes := writes + [Store(row, ABORTED)];
    }

    /** The caller's own submission. `question` is the active question's time window, `uqr` the caller's relation
        to it, as looked up; one new row, waiting or given up, when nothing is refused. */
    method ReScoreUserQuestion(question: Option<Window>, now: int, uqr: Option<Id>, createdAt: int, tokenFound: bool)
      returns (code: int)
      requires Valid()
      modifies this
      ensures Valid() && old(writes) <= writes
      ensures code == if question.None? then 404
                      else if !(question.value.start <= now <= question.value.end) then 410
                      else if uqr.None? then 503 else 200
      ensures rows == old(rows) + if code == 200 then Queued([uqr.value], createdAt, [tokenFound]) else []
      ensures code == 200 ==>
        rows == old(rows) + [Submission(uqr.value, if tokenFound then -3.0 else -2.0, createdAt)]
    {
      if question.None? {
        return 404;
      }
      if question.value.start > now || question.value.end < now {
        return 410;
      }
      if uqr.None? {
        return 503;
      }
      InsertRow(uqr.value, createdAt);
      if !tokenFound {
        GiveUp(|rows| - 1);
      }
      return 200;
    }

    /** For administrators: every relation of the question, active or not, gets a new row; inserting no rows at all
        is an error. */
    method ReScoreQuestion(isAdmin: bool, questionFound: bool, uqr: seq<Id>, createdAt: int, tokens: seq<bool>)
      returns (code: int)
      requires Valid() && |tokens| == |uqr|
      modifies this
      ensures Valid() && old(writes) <= writes
      ensures code == if !isAdmin then 401 else if !questionFound then 404 else if uqr == [] then 503 else 200
      ensures rows == old(rows) + if code == 200 then Queued(uqr, createdAt, tokens) else []
      ensures code == 200 ==> |rows| == |old(rows)| + |uqr| && forall i :: 0 <= i < |uqr| ==>
        rows[|old(rows)| + i] == Submission(uqr[i], if tokens[i] then -3.0 else -2.0, createdAt)
    {
      if !isAdmin {
        return 401;
      }
      if !questionFound {
        return 404;
      }
      if uqr == [] {
        return 503;
      }
      InsertAll(uqr, createdAt);
      GiveUpSome(uqr, createdAt, tokens);
      return 200;
    }

    method InsertAll(uqr: seq<Id>, createdAt: int)
      requires Valid()
      modifies this
      ensures Valid() && old(writes) <= writes && rows == old(rows) + Waiting(uqr, createdAt)
    {
      ghost var before := rows;
      for i := 0 to |uqr|
        invariant Valid() && old(writes) <= writes && rows == before + Waiting(uqr[..i], createdAt)
      {
        InsertRow(uqr[i], createdAt);
      }
      assert uqr[..|uqr|] == uqr;
    }

    /** The rows inserted last: those without a token are given up. */
    method GiveUpSome(uqr: seq<Id>, createdAt: int, tokens: seq<bool>)
      requires Valid() && |tokens| == |uqr| <= |rows|
      requires rows[|rows| - |uqr|..] == Waiting(uqr, createdAt)
      modifies this
      ensures Valid() && old(writes) <= writes
      ensures rows == old(rows)[..|old(rows)| - |uqr|] + Queued(uqr, createdAt, tokens)
    {
      var first := |rows| - |uqr|;
      ghost var before := rows[..first];
      for i := 0 to |uqr|
        invariant Valid() && old(writes) <= writes
        invariant rows == before + Queued(uqr[..i], createdAt, tokens[..i]) + Waiting(uqr[i..], createdAt)
      {
        if !tokens[i] {
          GiveUp(first + i);
        }
      }
    }
  }

  // ------------------------------------------------- judging a row

  /** The writes of a judging run that takes its row through these scores. */
  function Stores(row: nat, scores: seq<real>): seq<Write> {
    if |scores| <= 1 then [] else Stores(row, scores[..|scores| - 1]) + [Store(row, scores[|scores| - 1])]
  }

  /** A judging run on a waiting row leaves it with its last score and touches no other row. */
  lemma {:induction false} JudgingStores(db: Database, row: nat, scores: seq<real>)
    requires row < |db.submissions| && db.submissions[row].score == PENDING && Lifecycle(scores)
    ensures Exec(db, Stores(row, scores)) ==
            db.(submissions := db.submissions[row := db.submissions[row].(score := scores[|scores| - 1])])
  {
    var n := |scores| - 1;
    if n == 0 {
      assert db.submissions[row := db.submissions[row].(score := PENDING)] == db.submissions;
    } else {
      JudgingStores(db, row, scores[..n]);
      ExecOne(db, Stores(row, scores[..n]), Store(row, scores[n]));
    }
  }

  /** The scores stored to one row, zeros skipped. */
  function StoresTo(writes: seq<Write>, row: nat): seq<real> {
    if writes == [] then [] else
    var w := writes[|writes| - 1];
    StoresTo(writes[..|writes| - 1], row) + if w.Store? && w.row == row && w.score != 0.0 then [w.score] else []
  }

  /** Any interleaving of judging runs on different waiting rows, and of new rows that are not judged yet. */
  ghost predicate Interleaved(db: Database, writes: seq<Write>, runs: map<nat, seq<real>>) {
    && (forall row :: row in runs ==>
          row < |db.submissions| && db.submissions[row].score == PENDING && Lifecycle(runs[row]))
    && (forall row: nat :: StoresTo(writes, row) == if row in runs then runs[row][1..] else [])
  }

  lemma {:induction false} RowScoresStored(db: Database, writes: seq<Write>, row: nat)
    requires row >= |db.submissions| ==> StoresTo(writes, row) == []
    ensures row < |db.submissions| ==> RowScores(db, writes, row) == [db.submissions[row].score] + StoresTo(writes, row)
    ensures row >= |db.submissions| ==> |RowScores(db, writes, row)| <= 1
  {
    if writes != [] {
      var rest := writes[..|writes| - 1];
      RowScoresStored(db, rest, row);
      ScoresOfRow(db, rest, row);
    }
  }

  /** Interleaved with one another and with new submissions, judging runs lower nobody's total, whatever their
      outcomes. */
  lemma JudgingNeverLowers(db: Database, writes: seq<Write>, runs: map<nat, seq<real>>, questions: set<Id>,
                           before: seq<Best>, after: seq<Best>, user: Id)
    requires Interleaved(db, writes, runs)
    requires IsGroupMax(Rows(db, questions), before) && IsGroupMax(Rows(Exec(db, writes), questions), after)
    ensures TotalOf(before, user) <= TotalOf(after, user)
  {
    forall row: nat ensures Replaces(RowScores(db, writes, row)) {
      assert StoresTo(writes, row) == if row in runs then runs[row][1..] else [];
      RowScoresStored(db, writes, row);
      if row in runs {
        assert RowScores(db, writes, row) == runs[row];
      }
    }
    TotalsNeverFall(db, writes, questions, before, after, user);
  }
}
