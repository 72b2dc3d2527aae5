/** The leaderboard responses: the handlers' three statements run one after the other, and rows may be written in
    between. Questions, links and users are taken not to change meanwhile. */
module LeaderboardResponses {
  import opened JudgeRun
  import opened Leaderboard
  import opened LeaderboardTheorems

  // ------------------------------------------------- totals against later details

  /** Every score of the user that counts in `b` is the user's score for that question in `a`. */
  ghost predicate Matched(a: seq<Best>, b: seq<Best>, user: Id) {
    forall y :: y in b && y.key.user == user && y.score != 0.0 ==> y in a
  }

  lemma {:induction false} ZeroTotal(bs: seq<Best>, user: Id)
    requires forall b :: b in bs ==> b.score >= 0.0
    ensures TotalOf(bs, user) == 0.0 <==> forall b :: b in bs && b.key.user == user ==> b.score == 0.0
  {
    if bs != [] {
      var n := |bs| - 1;
      ZeroTotal(bs[..n], user);
      TotalNonNegative(bs[..n], user);
      assert bs == bs[..n] + [bs[n]];
    }
  }

  /** Dominated totals are equal exactly when the larger holds nothing that the smaller does not. */
  lemma {:induction false} EqualTotals(a: seq<Best>, b: seq<Best>, user: Id)
    requires DistinctKeys(a) && DistinctKeys(b) && Below(a, b, user)
    requires forall y :: y in a + b ==> y.score >= 0.0
    ensures TotalOf(a, user) <= TotalOf(b, user)
    ensures TotalOf(a, user) == TotalOf(b, user) <==> Matched(a, b, user)
    decreases |a|
  {
    if a == [] {
      TotalNonNegative(b, user);
      ZeroTotal(b, user);
    } else {
      var n := |a| - 1;
      var x := a[n];
      assert x in a && a == a[..n] + [x];
      if x.key.user != user {
        EqualTotals(a[..n], b, user);
      } else {
        var y :| y in b && y.key == x.key && x.score <= y.score;
        var i :| 0 <= i < |b| && b[i] == y;
        var rest := b[..i] + b[i + 1..];
        TotalWithout(b, i, user);
        BelowWithout(a, b, i, user);
        EqualTotals(a[..n], rest, user);
        MatchedWithout(a, b, i, user);
      }
    }
  }

  lemma MatchedWithout(a: seq<Best>, b: seq<Best>, i: nat, user: Id)
    requires DistinctKeys(a) && DistinctKeys(b) && a != [] && i < |b| && b[i].key == a[|a| - 1].key
    requires a[|a| - 1].key.user == user && 0.0 <= a[|a| - 1].score <= b[i].score
    ensures Matched(a, b, user) <==>
              a[|a| - 1].score == b[i].score && Matched(a[..|a| - 1], b[..i] + b[i + 1..], user)
  {
    var n, rest := |a| - 1, b[..i] + b[i + 1..];
    var x, y := a[n], b[i];
    assert x in a && y in b && a == a[..n] + [x];
    assert forall z :: z in b <==> z == y || z in rest by {
      assert b == b[..i] + [y] + b[i + 1..];
    }
    forall z | z in rest ensures z.key != x.key {
      var j :| 0 <= j < |rest| && rest[j] == z;
      assert z == b[if j < i then j else j + 1];
    }
    forall z | z in a && z.key == x.key ensures z == x {
      var j :| 0 <= j < |a| && a[j] == z;
      assert !(j < n);
    }
  }

  /** A listed total never exceeds the sum of scores read later, and equals it exactly when none of them was
      bettered in between. */
  lemma TotalsBehind(db: Database, writes: seq<Write>, questions: set<Id>, a: Answers, t: UserTotal)
    requires Orderly(db, writes) && ListAnswered(db, questions, a) && Detailed(Exec(db, writes), questions, a)
    requires t in a.page
    ensures t.total <= TotalOf(a.details, t.user)
    ensures t.total == TotalOf(a.details, t.user) <==> Matched(DistinctOn(a.sorted), a.details, t.user)
  {
    hide Orderly, Exec, Sorted, DistinctOn, IsGroupMax;
    SortedGroups(db, questions, a.sorted);
    LaterRows(db, writes, questions, a, t);
    GroupsCompare(Rows(db, questions), DistinctOn(a.sorted),
                  Joined(Exec(db, writes), Exec(db, writes).submissions, questions, Listed(a.page)), a.details, t.user);
  }

  lemma GroupsCompare(es: seq<Entry>, a: seq<Best>, fs: seq<Entry>, b: seq<Best>, user: Id)
    requires IsGroupMax(es, a) && IsGroupMax(fs, b)
    requires forall e :: e in es && e.key.user == user ==>
               exists f :: f in fs && f.key == e.key && Clamp(e.score) <= Clamp(f.score)
    ensures TotalOf(a, user) <= TotalOf(b, user)
    ensures TotalOf(a, user) == TotalOf(b, user) <==> Matched(a, b, user)
  {
    RowsBelow(es, a, fs, b, user);
    BestNonNegative(es, a);
    BestNonNegative(fs, b);
    EqualTotals(a, b, user);
  }

  lemma LaterRows(db: Database, writes: seq<Write>, questions: set<Id>, a: Answers, t: UserTotal)
    requires Orderly(db, writes) && ListAnswered(db, questions, a) && t in a.page
    ensures var later := Exec(db, writes);
      forall e :: e in Rows(db, questions) && e.key.user == t.user ==>
        exists f :: f in Joined(later, later.submissions, questions, Listed(a.page))
                    && f.key == e.key && Clamp(e.score) <= Clamp(f.score)
  {
    var later := Exec(db, writes);
    RowsBetter(db, writes, questions);
    WritesGrow(db, writes);
    ListedParticipates(db, questions, a, t.user);
    hide Orderly, Exec, ListAnswered, Joined;
    forall e | e in Rows(db, questions) && e.key.user == t.user
      ensures exists f :: f in Joined(later, later.submissions, questions, Listed(a.page))
                          && f.key == e.key && Clamp(e.score) <= Clamp(f.score)
    {
      var f :| f in Rows(later, questions) && f.key == e.key && Clamp(e.score) <= Clamp(f.score);
      JoinedSame(later, later.submissions, questions, Participants(db), Listed(a.page), f);
    }
  }

  // ------------------------------------------------- counts against later lists

  lemma UsersStay(db: Database, writes: seq<Write>, questions: set<Id>)
    requires Orderly(db, writes)
    ensures EntryUsers(Rows(db, questions)) <= EntryUsers(Rows(Exec(db, writes), questions))
  {
    RowsBetter(db, writes, questions);
    hide Orderly, Exec, Rows;
  }

  lemma Sizes<T>(a: set<T>, b: set<T>)
    requires a <= b
    ensures |b| == |a| + |b - a|
  {
    assert b == a + (b - a);
  }

  /** A count read before the list is short of its length by exactly the users first listed in between. */
  lemma CountBehind(db: Database, writes: seq<Write>, questions: set<Id>, a: Answers, groups: seq<Best>)
    requires Orderly(db, writes) && IsGroupMax(Rows(db, questions), groups)
    requires ListAnswered(Exec(db, writes), questions, a)
    ensures |a.list| == |Users(groups)| + |Newcomers(db, writes, questions)|
  {
    UsersStay(db, writes, questions);
    ListLength(Exec(db, writes), questions, a);
    UsersFromKeys(Rows(db, questions), groups);
    hide Orderly, Exec, Rows, ListAnswered;
    Sizes(EntryUsers(Rows(db, questions)), EntryUsers(Rows(Exec(db, writes), questions)));
  }

  /** The users whose first counted submission is written in between. */
  function Newcomers(db: Database, writes: seq<Write>, questions: set<Id>): set<Id> {
    EntryUsers(Rows(Exec(db, writes), questions)) - EntryUsers(Rows(db, questions))
  }

  /** The exam's count falls short of the list's length by no more than those. */
  lemma ExamCountBehind(db: Database, writes: seq<Write>, exam: Id, a: Answers)
    requires Orderly(db, writes) && ListAnswered(Exec(db, writes), ExamQuestions(db, exam), a)
    ensures |a.list| <= |EntryUsers(Rows(db, LinkedQuestions(db, exam)))|
                        + |Newcomers(db, writes, ExamQuestions(db, exam))|
  {
    var active := ExamQuestions(db, exam);
    UsersStay(db, writes, active);
    ListLength(Exec(db, writes), active, a);
    LinkedCountsMore(db, exam);
    hide Orderly, Exec, Rows, ListAnswered, ExamQuestions, LinkedQuestions;
    Sizes(EntryUsers(Rows(db, active)), EntryUsers(Rows(Exec(db, writes), active)));
    Sizes(EntryUsers(Rows(db, active)), EntryUsers(Rows(db, LinkedQuestions(db, exam))));
  }

  // ------------------------------------------------- the responses

  datatype QuestionScore = QuestionScore(question: Id, score: real)
  datatype LeaderboardScore = LeaderboardScore(user: Id, total: real, questionScores: seq<QuestionScore>)
  datatype Response = NotFound | Found(count: nat, scores: seq<LeaderboardScore>)

  function DetailsOf(details: seq<Best>, user: Id): seq<QuestionScore> {
    if details == [] then [] else
    var d := details[|details| - 1];
    DetailsOf(details[..|details| - 1], user) +
    if d.key.user == user then [QuestionScore(d.key.question, d.score)] else []
  }

  function SumOf(qs: seq<QuestionScore>): real {
    if qs == [] then 0.0 else SumOf(qs[..|qs| - 1]) + qs[|qs| - 1].score
  }

  lemma {:induction false} DetailsSum(details: seq<Best>, user: Id)
    ensures SumOf(DetailsOf(details, user)) == TotalOf(details, user)
  {
    if details != [] {
      var n := |details| - 1;
      DetailsSum(details[..n], user);
      if details[n].key.user == user {
        assert DetailsOf(details, user)[..|DetailsOf(details, user)| - 1] == DetailsOf(details[..n], user);
      } else {
        assert DetailsOf(details, user) == DetailsOf(details[..n], user);
      }
    }
  }

  /** SUM as a sum: of one score it is that score, of two lists one after the other the sum of both. */
  lemma {:induction false} SumLaws(a: seq<QuestionScore>, b: seq<QuestionScore>, q: QuestionScore)
    ensures SumOf([q]) == q.score
    ensures SumOf(a + b) == SumOf(a) + SumOf(b)
  {
    assert [q][..0] == [];
    if b == [] {
      assert a + b == a;
    } else {
      var n := |b| - 1;
      SumLaws(a, b[..n], q);
      assert (a + b)[..|a + b| - 1] == a + b[..n];
    }
  }

  /** The map's value, nil for a missing user. */
  function Lookup(m: map<Id, seq<QuestionScore>>, user: Id): seq<QuestionScore> {
    if user in m then m[user] else []
  }

  method ByUser(details: seq<Best>) returns (m: map<Id, seq<QuestionScore>>)
    ensures forall u :: Lookup(m, u) == DetailsOf(details, u)
  {
    m := map[];
    for i := 0 to |details|
      invariant forall u :: Lookup(m, u) == DetailsOf(details[..i], u)
    {
      var d := details[i];
      assert details[..i + 1][..i] == details[..i];
      m := m[d.key.user := Lookup(m, d.key.user) + [QuestionScore(d.key.question, d.score)]];
    }
    assert details[..|details|] == details;
  }

  /** One entry for each user of the page. */
  method Assemble(page: seq<UserTotal>, details: seq<Best>) returns (scores: seq<LeaderboardScore>)
    ensures |scores| == |page|
    ensures forall i :: 0 <= i < |page| ==>
              scores[i] == LeaderboardScore(page[i].user, page[i].total, DetailsOf(details, page[i].user))
  {
    var byUser := ByUser(details);
    scores := [];
    for i := 0 to |page|
      invariant |scores| == i
      invariant forall k :: 0 <= k < i ==>
                  scores[k] == LeaderboardScore(page[k].user, page[k].total, DetailsOf(details, page[k].user))
    {
      scores := scores + [LeaderboardScore(page[i].user, page[i].total, Lookup(byUser, page[i].user))];
    }
  }

  lemma {:induction false} DetailsExactly(details: seq<Best>, user: Id, q: QuestionScore)
    ensures q in DetailsOf(details, user) <==> Best(Relation(user, q.question), q.score) in details
  {
    if details != [] {
      var n := |details| - 1;
      DetailsExactly(details[..n], user, q);
      assert details == details[..n] + [details[n]];
    }
  }

  /** A submission of this user to this question that the table holds. */
  predicate Submitted(db: Database, user: Id, question: Id, s: Submission) {
    s in db.submissions && s.rel in db.relations && db.relations[s.rel] == Relation(user, question)
  }

  /** What is shown of a user: for exactly the questions with a submission, the best of 0 and their scores. */
  ghost predicate ShowsBest(db: Database, questions: set<Id>, entry: LeaderboardScore) {
    && (forall q :: q in entry.questionScores ==>
          && q.question in questions && q.score >= 0.0
          && (forall s :: Submitted(db, entry.user, q.question, s) ==> s.score <= q.score)
          && (exists s :: Submitted(db, entry.user, q.question, s) && (q.score == 0.0 || s.score == q.score)))
    && (forall s, question :: Submitted(db, entry.user, question, s) && question in questions ==>
          exists q :: q in entry.questionScores && q.question == question)
  }

  lemma EntryShowsBest(db: Database, questions: set<Id>, a: Answers, entry: LeaderboardScore)
    requires Detailed(db, questions, a) && entry.user in Listed(a.page)
    requires entry.questionScores == DetailsOf(a.details, entry.user)
    ensures ShowsBest(db, questions, entry)
  {
    var us := Listed(a.page);
    var rows := Joined(db, db.submissions, questions, us);
    forall q | q in entry.questionScores
      ensures q.question in questions && q.score >= 0.0
      ensures forall s :: Submitted(db, entry.user, q.question, s) ==> s.score <= q.score
      ensures exists s :: Submitted(db, entry.user, q.question, s) && (q.score == 0.0 || s.score == q.score)
    {
      ShownIsBest(db, questions, a, entry, q);
    }
    forall s, question | Submitted(db, entry.user, question, s) && question in questions
      ensures exists q :: q in entry.questionScores && q.question == question
    {
      var e := Entry(Relation(entry.user, question), s.score, s.createdAt);
      JoinedExactly(db, db.submissions, questions, us, e);
      assert e.key in BestKeys(a.details);
      var b :| b in a.details && b.key == e.key;
      DetailsExactly(a.details, entry.user, QuestionScore(question, b.score));
      assert QuestionScore(question, b.score) in entry.questionScores;
    }
  }

  lemma ShownIsBest(db: Database, questions: set<Id>, a: Answers, entry: LeaderboardScore, q: QuestionScore)
    requires Detailed(db, questions, a) && entry.user in Listed(a.page)
    requires entry.questionScores == DetailsOf(a.details, entry.user) && q in entry.questionScores
    ensures q.question in questions && q.score >= 0.0
    ensures forall s :: Submitted(db, entry.user, q.question, s) ==> s.score <= q.score
    ensures exists s :: Submitted(db, entry.user, q.question, s) && (q.score == 0.0 || s.score == q.score)
  {
    var us, b := Listed(a.page), Best(Relation(entry.user, q.question), q.score);
    var rows := Joined(db, db.submissions, questions, us);
    DetailsExactly(a.details, entry.user, q);
    BestExactly(rows, a.details, b);
    var e :| e in rows && e.key == b.key && (b.score == 0.0 || e.score == b.score);
    JoinedExactly(db, db.submissions, questions, us, e);
    var s :| s in db.submissions && s.rel in db.relations && db.relations[s.rel] == e.key && s.score == e.score;
    assert Submitted(db, entry.user, q.question, s);
    forall s | Submitted(db, entry.user, q.question, s) ensures s.score <= q.score {
      var e := Entry(b.key, s.score, s.createdAt);
      JoinedExactly(db, db.submissions, questions, us, e);
      assert e in rows;
    }
  }

  lemma EntriesShowBest(db: Database, questions: set<Id>, a: Answers, scores: seq<LeaderboardScore>)
    requires Detailed(db, questions, a)
    requires |scores| == |a.page| && forall i :: 0 <= i < |a.page| ==>
               scores[i] == LeaderboardScore(a.page[i].user, a.page[i].total, DetailsOf(a.details, a.page[i].user))
    ensures forall i :: 0 <= i < |scores| ==> ShowsBest(db, questions, scores[i])
  {
    hide Detailed, ShowsBest;
    forall i | 0 <= i < |scores| ensures ShowsBest(db, questions, scores[i]) {
      assert a.page[i] in a.page;
      EntryShowsBest(db, questions, a, scores[i]);
    }
  }

  /** By falling total, nobody twice. */
  predicate BestFirst(scores: seq<LeaderboardScore>) {
    forall i, j :: 0 <= i < j < |scores| ==>
      scores[i].user != scores[j].user && scores[i].total >= scores[j].total
  }

  lemma EntriesInOrder(db: Database, questions: set<Id>, a: Answers, scores: seq<LeaderboardScore>)
    requires ListAnswered(db, questions, a)
    requires |scores| == |a.page| && forall i :: 0 <= i < |a.page| ==>
               scores[i] == LeaderboardScore(a.page[i].user, a.page[i].total, DetailsOf(a.details, a.page[i].user))
    ensures BestFirst(scores)
  {
    hide Sorted, DistinctOn, IsListing, PageOf;
    PageInOrder(DistinctOn(a.sorted), a.list, a.page);
  }

  /** The sum of the scores shown is each entry's total or more, and its total exactly when none of them was bettered
      after the totals were read. */
  lemma EntriesBehind(db: Database, writes: seq<Write>, questions: set<Id>, a: Answers, scores: seq<LeaderboardScore>)
    requires Orderly(db, writes) && ListAnswered(db, questions, a) && Detailed(Exec(db, writes), questions, a)
    requires |scores| == |a.page| && forall i :: 0 <= i < |a.page| ==>
               scores[i] == LeaderboardScore(a.page[i].user, a.page[i].total, DetailsOf(a.details, a.page[i].user))
    ensures forall i :: 0 <= i < |scores| ==>
              && scores[i].total <= SumOf(scores[i].questionScores)
              && (scores[i].total == SumOf(scores[i].questionScores)
                  <==> Matched(DistinctOn(a.sorted), a.details, scores[i].user))
    ensures writes == [] ==> forall i :: 0 <= i < |scores| ==> scores[i].total == SumOf(scores[i].questionScores)
  {
    hide Matched, Orderly, ListAnswered, Detailed, DistinctOn;
    forall i | 0 <= i < |scores|
      ensures scores[i].total <= SumOf(scores[i].questionScores)
      ensures scores[i].total == SumOf(scores[i].questionScores)
              <==> Matched(DistinctOn(a.sorted), a.details, scores[i].user)
      ensures writes == [] ==> scores[i].total == SumOf(scores[i].questionScores)
    {
      assert a.page[i] in a.page;
      TotalsBehind(db, writes, questions, a, a.page[i]);
      DetailsSum(a.details, a.page[i].user);
      if writes == [] { TotalsAgree(db, questions, a, a.page[i]); }
    }
  }

  /** The count is read at `db`, the list after the writes `first`, the details after `second` too. An empty page is an
      error; otherwise the entries keep the page's order, every total is at most the sum of the scores shown, and the
      count is the length of the whole list less the users first listed after it was read. Both are equal when
      nothing was written in between. */
  method GetLeaderboard(ghost db: Database, ghost first: seq<Write>, ghost second: seq<Write>,
                        a: Answers, ghost groups: seq<Best>) returns (r: Response)
    requires Orderly(db, first + second)
    requires IsGroupMax(Rows(db, PublicQuestions(db)), groups) && a.count == |Users(groups)|
    requires ListAnswered(Exec(db, first), PublicQuestions(db), a)
    requires Detailed(Exec(db, first + second), PublicQuestions(db), a)
    ensures a.page == [] <==> r.NotFound?
    ensures r.Found? ==> r.count + |Newcomers(db, first, PublicQuestions(db))| == |a.list| && |r.scores| == |a.page|
    ensures r.Found? && first == [] ==> r.count == |a.list|
    ensures r.Found? ==> forall i :: 0 <= i < |r.scores| ==>
              && r.scores[i].user == a.page[i].user && r.scores[i].total == a.page[i].total
              && r.scores[i].total <= SumOf(r.scores[i].questionScores)
              && (r.scores[i].total == SumOf(r.scores[i].questionScores)
                  <==> Matched(DistinctOn(a.sorted), a.details, r.scores[i].user))
    ensures r.Found? && second == [] ==>
              forall i :: 0 <= i < |r.scores| ==> r.scores[i].total == SumOf(r.scores[i].questionScores)
    ensures r.Found? ==> forall i :: 0 <= i < |r.scores| ==>
              ShowsBest(Exec(db, first + second), PublicQuestions(db), r.scores[i])
    ensures r.Found? ==> BestFirst(r.scores)
  {
    if |a.page| == 0 {
      return NotFound;
    }
    var scores := Assemble(a.page, a.details);
    hide Orderly, Exec, ListAnswered, Detailed, PublicQuestions, Matched, ShowsBest, BestFirst;
    OrderlyFirst(db, first, second);
    OrderlyRest(db, first, second);
    CountBehind(db, first, PublicQuestions(db), a, groups);
    if first == [] { NoNewcomers(db, PublicQuestions(db)); }
    EntriesBehind(Exec(db, first), second, PublicQuestions(db), a, scores);
    EntriesShowBest(Exec(db, first + second), PublicQuestions(db), a, scores);
    EntriesInOrder(Exec(db, first), PublicQuestions(db), a, scores);
    return Found(a.count, scores);
  }

  lemma NoNewcomers(db: Database, questions: set<Id>)
    ensures Newcomers(db, [], questions) == {}
  {
  }

  /** The exam's version: its count, read first, is of users with a submission on any linked question. */
  method GetExamLeaderboard(ghost db: Database, ghost first: seq<Write>, ghost second: seq<Write>,
                            ghost exam: Id, examFound: bool, a: Answers) returns (r: Response)
    requires Orderly(db, first + second)
    requires a.count == |EntryUsers(Rows(db, LinkedQuestions(db, exam)))|
    requires ListAnswered(Exec(db, first), ExamQuestions(db, exam), a)
    requires Detailed(Exec(db, first + second), ExamQuestions(db, exam), a)
    ensures !examFound || a.page == [] <==> r.NotFound?
    ensures r.Found? ==> r.count + |Newcomers(db, first, ExamQuestions(db, exam))| >= |a.list| && |r.scores| == |a.page|
    ensures r.Found? && first == [] ==> r.count >= |a.list|
    ensures r.Found? ==> forall i :: 0 <= i < |r.scores| ==>
              && r.scores[i].user == a.page[i].user && r.scores[i].total == a.page[i].total
              && r.scores[i].total <= SumOf(r.scores[i].questionScores)
              && (r.scores[i].total == SumOf(r.scores[i].questionScores)
                  <==> Matched(DistinctOn(a.sorted), a.details, r.scores[i].user))
    ensures r.Found? && second == [] ==>
              forall i :: 0 <= i < |r.scores| ==> r.scores[i].total == SumOf(r.scores[i].questionScores)
    ensures r.Found? ==> forall i :: 0 <= i < |r.scores| ==>
              ShowsBest(Exec(db, first + second), ExamQuestions(db, exam), r.scores[i])
    ensures r.Found? ==> BestFirst(r.scores)
  {
    if !examFound || |a.page| == 0 {
      return NotFound;
    }
    var scores := Assemble(a.page, a.details);
    hide Orderly, Exec, ListAnswered, Detailed, ExamQuestions, LinkedQuestions, Matched, ShowsBest, BestFirst;
    OrderlyFirst(db, first, second);
    OrderlyRest(db, first, second);
    ExamCountBehind(db, first, exam, a);
    if first == [] { NoNewcomers(db, ExamQuestions(db, exam)); }
    EntriesBehind(Exec(db, first), second, ExamQuestions(db, exam), a, scores);
    EntriesShowBest(Exec(db, first + second), ExamQuestions(db, exam), a, scores);
    EntriesInOrder(Exec(db, first), ExamQuestions(db, exam), a, scores);
    return Found(a.count, scores);
  }

  // ------------------------------------------------- a submission between the statements

  /** One user, one public question. */
  function Beginner(): Database {
    Database([], map[1 := Relation(1, 1)], map[1 := true], map[1 := User("a", true, false)], map[])
  }

  lemma BeginnerRows(db: Database, score: real, us: set<Id>)
    requires db == Beginner().(submissions := [Submission(1, score, 0)]) && us == {1}
    ensures Joined(db, db.submissions, PublicQuestions(Beginner()), us) == [Entry(Relation(1, 1), score, 0)]
    ensures Participants(db) == {1}
  {
    var s := db.submissions[0];
    assert [s][..0] == [];
    assert 1 in PublicQuestions(Beginner());
    assert Joined(db, [], PublicQuestions(Beginner()), us) == [];
  }

  lemma NothingWritten(db: Database)
    ensures Exec(db, []) == db && Orderly(db, [])
  {
  }

  lemma BeginnerWrites()
    ensures var db, w1, w2 := Beginner(), [Insert(1, 0)], [Store(0, 80.0)];
      && Exec(db, w1) == db.(submissions := [Submission(1, PENDING, 0)])
      && Exec(db, w1 + w2) == db.(submissions := [Submission(1, 80.0, 0)])
      && Orderly(db, w1 + w2)
  {
    hide Orderly, Exec;
    var db := Beginner();
    assert [Insert(1, 0)] == [] + [Insert(1, 0)];
    ExecOne(db, [], Insert(1, 0));
    NothingWritten(db);
    OrderlyStep(db, [], Insert(1, 0));
    ExecOne(db, [Insert(1, 0)], Store(0, 80.0));
    OrderlyStep(db, [Insert(1, 0)], Store(0, 80.0));
  }

  /** A user's first submission is inserted between the first two statements and judged between the last two: the
      response counts nobody, lists one user, with total 0, and shows a score of 80. */
  lemma ResponseBehind(a: Answers)
    requires a == Answers([Entry(Relation(1, 1), PENDING, 0)], [UserTotal(1, 0.0)], [UserTotal(1, 0.0)],
                          [Best(Relation(1, 1), 80.0)], 0)
    ensures var db, w1, w2, qs := Beginner(), [Insert(1, 0)], [Store(0, 80.0)], PublicQuestions(Beginner());
      && Orderly(db, w1 + w2) && IsGroupMax(Rows(db, qs), []) && Users([]) == {}
      && ListAnswered(Exec(db, w1), qs, a) && Detailed(Exec(db, w1 + w2), qs, a)
      && a.count == 0 < |a.list| && a.page[0].total == 0.0 < TotalOf(a.details, 1) == 80.0
  {
    hide Orderly, Exec, Joined, Beginner, PublicQuestions, IsGroupMax, DistinctOn, IsListing, Sorted, PageOf;
    var db := Beginner();
    BeginnerWrites();
    assert Listed(a.page) == {1};
    WholePage(a.list);
    BeginnerRows(Exec(db, [Insert(1, 0)]), PENDING, {1});
    BeginnerRows(Exec(db, [Insert(1, 0)] + [Store(0, 80.0)]), 80.0, {1});
    SingleGroup(a.sorted[0]);
    SingleListing(a.sorted[0]);
    SingleGroup(Entry(Relation(1, 1), 80.0, 0));
    NoGroups(PublicQuestions(db));
    OneTotal(Best(Relation(1, 1), 80.0));
  }

  lemma NoGroups(questions: set<Id>)
    ensures IsGroupMax(Rows(Beginner(), questions), [])
  {
  }

  lemma OneTotal(b: Best)
    ensures TotalOf([b], b.key.user) == b.score
  {
    assert [b][..0] == [];
  }
}
