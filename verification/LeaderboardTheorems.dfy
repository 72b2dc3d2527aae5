/** The two leaderboards as responses: totals against details, counts against lists, and what later
    submissions, rescores and judgings can do to a total. */
module LeaderboardTheorems {
  import opened JudgeRun
  import opened Leaderboard

  // ------------------------------------------------- the queries of one request

  datatype UserTotal = UserTotal(user: Id, total: real)

  datatype Answers = Answers(
    sorted: seq<Entry>,        // the inner rows of the totals query, in its order
    list: seq<UserTotal>,      // the totals query without OFFSET and LIMIT
    page: seq<UserTotal>,      // the rows this request asked for
    details: seq<Best>,        // best score by user and question, for the page's users
    count: nat)

  function Users(bs: seq<Best>): set<Id> { set b | b in bs :: b.key.user }

  function EntryUsers(es: seq<Entry>): set<Id> { set e | e in es :: e.key.user }

  function Listed(list: seq<UserTotal>): set<Id> { set t | t in list :: t.user }

  /** GROUP BY user: SUM(max_score), best totals first. */
  ghost predicate IsListing(bs: seq<Best>, list: seq<UserTotal>) {
    && (forall i, j :: 0 <= i < j < |list| ==> list[i].user != list[j].user && list[i].total >= list[j].total)
    && Listed(list) == Users(bs)
    && (forall t :: t in list ==> t.total == TotalOf(bs, t.user))
  }

  /** OFFSET and LIMIT take a run of rows. */
  ghost predicate PageOf(page: seq<UserTotal>, list: seq<UserTotal>)
    ensures PageOf(page, list) ==> forall t :: t in page ==> t in list
  {
    exists lo, hi :: 0 <= lo <= hi <= |list| && page == list[lo..hi]
  }

  /** The totals query, as the database may answer it, and the part of it that was asked for. */
  ghost predicate ListAnswered(db: Database, questions: set<Id>, a: Answers) {
    && Sorted(a.sorted) && multiset(a.sorted) == multiset(Rows(db, questions))
    && IsListing(DistinctOn(a.sorted), a.list)
    && PageOf(a.page, a.list)
  }

  /** The details query for the page's users. */
  ghost predicate Detailed(db: Database, questions: set<Id>, a: Answers) {
    IsGroupMax(Joined(db, db.submissions, questions, Listed(a.page)), a.details)
  }

  /** Both on the same table. */
  ghost predicate Answered(db: Database, questions: set<Id>, a: Answers) {
    ListAnswered(db, questions, a) && Detailed(db, questions, a)
  }

  // ------------------------------------------------- totals agree with details

  lemma {:induction false} JoinedSame(db: Database, subs: seq<Submission>, questions: set<Id>, us: set<Id>,
                                      vs: set<Id>, e: Entry)
    requires e.key.user in us && e.key.user in vs
    ensures e in Joined(db, subs, questions, us) <==> e in Joined(db, subs, questions, vs)
  {
    if subs != [] {
      JoinedSame(db, subs[..|subs| - 1], questions, us, vs, e);
    }
  }

  lemma SameElements<T>(a: seq<T>, b: seq<T>)
    requires multiset(a) == multiset(b)
    ensures forall x :: x in a <==> x in b
  {
    forall x ensures x in a <==> x in b {
      assert x in multiset(a) <==> x in multiset(b);
    }
  }

  lemma {:induction false} JoinedUsers(db: Database, subs: seq<Submission>, questions: set<Id>, us: set<Id>)
    ensures forall e :: e in Joined(db, subs, questions, us) ==> e.key.user in us && e.key.question in questions
  {
    if subs != [] {
      JoinedUsers(db, subs[..|subs| - 1], questions, us);
    }
  }

  lemma SortedGroups(db: Database, questions: set<Id>, sorted: seq<Entry>)
    requires Sorted(sorted) && multiset(sorted) == multiset(Rows(db, questions))
    ensures IsGroupMax(Rows(db, questions), DistinctOn(sorted))
  {
    var rows, bs := Rows(db, questions), DistinctOn(sorted);
    SameElements(sorted, rows);
    DistinctOnGroups(sorted);
    assert Keys(sorted) == Keys(rows);
    forall b | b in bs ensures IsBest(rows, b) {
      assert IsBest(sorted, b);
      var m :| IsMax(sorted, b.key, m) && b.score == Clamp(m);
      assert IsMax(rows, b.key, m);
    }
  }

  /** Every user on the page is listed with the sum of that user's question scores. */
  lemma TotalsAgree(db: Database, questions: set<Id>, a: Answers, t: UserTotal)
    requires Answered(db, questions, a) && t in a.page
    ensures t.total == TotalOf(a.details, t.user)
  {
    var rows, joined := Rows(db, questions), Joined(db, db.submissions, questions, Listed(a.page));
    SortedGroups(db, questions, a.sorted);
    ListedParticipates(db, questions, a, t.user);
    forall e: Entry | e.key.user == t.user ensures e in rows <==> e in joined {
      JoinedSame(db, db.submissions, questions, Participants(db), Listed(a.page), e);
    }
    SameTotal(rows, DistinctOn(a.sorted), joined, a.details, t.user);
  }

  lemma ListedParticipates(db: Database, questions: set<Id>, a: Answers, user: Id)
    requires ListAnswered(db, questions, a) && user in Listed(a.list)
    ensures user in Participants(db)
  {
    SortedGroups(db, questions, a.sorted);
    JoinedUsers(db, db.submissions, questions, Participants(db));
    var b :| b in DistinctOn(a.sorted) && b.key.user == user;
    assert b.key in Keys(Rows(db, questions));
  }

  lemma WholePage(list: seq<UserTotal>)
    ensures PageOf(list, list)
  {
    assert list == list[0..|list|];
  }

  /** The page keeps the list's order: best totals first, nobody twice. */
  lemma PageInOrder(bs: seq<Best>, list: seq<UserTotal>, page: seq<UserTotal>)
    requires IsListing(bs, list) && PageOf(page, list)
    ensures forall i, j :: 0 <= i < j < |page| ==> page[i].user != page[j].user && page[i].total >= page[j].total
  {
    var lo, hi :| 0 <= lo <= hi <= |list| && page == list[lo..hi];
    forall i, j | 0 <= i < j < |page| ensures page[i].user != page[j].user && page[i].total >= page[j].total {
      assert page[i] == list[lo + i] && page[j] == list[lo + j];
    }
  }

  // ------------------------------------------------- counts

  lemma {:induction false} DistinctLength(list: seq<UserTotal>)
    requires forall i, j :: 0 <= i < j < |list| ==> list[i].user != list[j].user
    ensures |Listed(list)| == |list|
  {
    if list != [] {
      var n := |list| - 1;
      DistinctLength(list[..n]);
      assert list == list[..n] + [list[n]];
      assert Listed(list) == Listed(list[..n]) + {list[n].user};
      assert list[n].user !in Listed(list[..n]);
    }
  }

  lemma UsersFromKeys(es: seq<Entry>, bs: seq<Best>)
    requires BestKeys(bs) == Keys(es)
    ensures Users(bs) == EntryUsers(es)
  {
    forall e | e in es ensures e.key.user in Users(bs) {
      assert e.key in BestKeys(bs);
    }
    forall b | b in bs ensures b.key.user in EntryUsers(es) {
      assert b.key in Keys(es);
    }
  }

  lemma ListLength(db: Database, questions: set<Id>, a: Answers)
    requires ListAnswered(db, questions, a)
    ensures Listed(a.list) == EntryUsers(Rows(db, questions))
    ensures |a.list| == |EntryUsers(Rows(db, questions))|
  {
    DistinctLength(a.list);
    SortedGroups(db, questions, a.sorted);
    UsersFromKeys(Rows(db, questions), DistinctOn(a.sorted));
  }

  /** COUNT(DISTINCT user_id) over the groups is the number of rows of the whole list. */
  lemma CountIsListLength(db: Database, questions: set<Id>, a: Answers, groups: seq<Best>)
    requires ListAnswered(db, questions, a) && IsGroupMax(Rows(db, questions), groups)
    ensures |Users(groups)| == |a.list|
  {
    ListLength(db, questions, a);
    UsersFromKeys(Rows(db, questions), groups);
  }

  lemma {:induction false} JoinedGrows(db: Database, subs: seq<Submission>, questions: set<Id>, more: set<Id>,
                                       us: set<Id>, e: Entry)
    requires questions <= more && e in Joined(db, subs, questions, us)
    ensures e in Joined(db, subs, more, us)
  {
    var n := |subs| - 1;
    if e in Joined(db, subs[..n], questions, us) {
      JoinedGrows(db, subs[..n], questions, more, us, e);
    }
  }

  /** Everyone counted by active linked questions is counted by linked ones. */
  lemma LinkedCountsMore(db: Database, exam: Id)
    ensures EntryUsers(Rows(db, ExamQuestions(db, exam))) <= EntryUsers(Rows(db, LinkedQuestions(db, exam)))
  {
    var linked, active := LinkedQuestions(db, exam), ExamQuestions(db, exam);
    assert active <= linked;
    forall u | u in EntryUsers(Rows(db, active)) ensures u in EntryUsers(Rows(db, linked)) {
      var e :| e in Rows(db, active) && e.key.user == u;
      JoinedGrows(db, db.submissions, active, linked, Participants(db), e);
    }
  }

  /** The exam count is at least the length of the list, and equal to it exactly when everyone with a submission
      on a linked question also has one on an active linked question. */
  lemma ExamCount(db: Database, exam: Id, a: Answers)
    requires ListAnswered(db, ExamQuestions(db, exam), a)
    ensures var linked := EntryUsers(Rows(db, LinkedQuestions(db, exam)));
      && |a.list| <= |linked|
      && (|a.list| == |linked| <==> forall u :: u in linked ==> u in EntryUsers(Rows(db, ExamQuestions(db, exam))))
  {
    ListLength(db, ExamQuestions(db, exam), a);
    LinkedCountsMore(db, exam);
    var linked := EntryUsers(Rows(db, LinkedQuestions(db, exam)));
    var active := EntryUsers(Rows(db, ExamQuestions(db, exam)));
    assert linked == active + (linked - active);
    assert |linked| == |active| <==> linked - active == {};
  }

  /** Two users with a submission each, on two questions of exam 0; question 2 has been deactivated. */
  function Deactivated(): Database {
    Database([Submission(1, 80.0, 0), Submission(2, 90.0, 0)], map[1 := Relation(1, 1), 2 := Relation(2, 2)],
             map[1 := true, 2 := false], map[1 := User("a", true, false), 2 := User("b", true, false)],
             map[(0, 1) := 100, (0, 2) := 100])
  }

  lemma DeactivatedRows(questions: set<Id>, us: set<Id>)
    requires 1 in questions && 1 in us
    ensures var db, e1, e2 := Deactivated(), Entry(Relation(1, 1), 80.0, 0), Entry(Relation(2, 2), 90.0, 0);
      Joined(db, db.submissions, questions, us) == if 2 in questions && 2 in us then [e1, e2] else [e1]
  {
    var db := Deactivated();
    var s1 := db.submissions[0];
    assert db.submissions[..1] == [s1] && [s1][..0] == [];
    assert Joined(db, [], questions, us) == [];
    assert Joined(db, [s1], questions, us) == [Entry(Relation(1, 1), 80.0, 0)];
  }

  lemma DeactivatedSets()
    ensures LinkedQuestions(Deactivated(), 0) == {1, 2} && ExamQuestions(Deactivated(), 0) == {1}
    ensures Participants(Deactivated()) == {1, 2}
  {
    var db := Deactivated();
    assert (0, 1) in db.examQuestions && (0, 2) in db.examQuestions;
  }

  lemma SingleGroup(e: Entry)
    ensures DistinctOn([e]) == [Best(e.key, Clamp(e.score))] && IsGroupMax([e], [Best(e.key, Clamp(e.score))])
  {
    var b := Best(e.key, Clamp(e.score));
    assert [e][..0] == [];
    assert e in [e] && b in [b];
    hide Sorted, DistinctOn;
    assert IsMax([e], b.key, e.score);
    assert IsBest([e], b);
    assert Keys([e]) == BestKeys([b]);
  }

  lemma SingleListing(e: Entry)
    ensures Sorted([e]) && IsListing([Best(e.key, Clamp(e.score))], [UserTotal(e.key.user, Clamp(e.score))])
  {
    var b, t := Best(e.key, Clamp(e.score)), UserTotal(e.key.user, Clamp(e.score));
    assert b in [b] && t in [t];
    assert [b][..0] == [];
    assert TotalOf([b], e.key.user) == Clamp(e.score);
    hide TotalOf;
    assert Listed([t]) == Users([b]);
  }

  lemma TwoUsers(d: Entry, e: Entry)
    requires d.key.user != e.key.user
    ensures |EntryUsers([d, e])| == 2
  {
    assert d in [d, e] && e in [d, e];
    assert EntryUsers([d, e]) == {d.key.user, e.key.user};
  }

  function OneListed(): Answers {
    Answers([Entry(Relation(1, 1), 80.0, 0)], [UserTotal(1, 80.0)], [UserTotal(1, 80.0)],
            [Best(Relation(1, 1), 80.0)], 2)
  }

  lemma DeactivatedAnswered()
    ensures Answered(Deactivated(), ExamQuestions(Deactivated(), 0), OneListed())
  {
    var db, a := Deactivated(), OneListed();
    var active := ExamQuestions(db, 0);
    hide Deactivated, ExamQuestions, Participants, Joined, IsListing, DistinctOn, IsGroupMax, Sorted, PageOf;
    DeactivatedSets();
    assert Listed(a.page) == {1};
    WholePage(a.list);
    DeactivatedRows(active, Participants(db));
    DeactivatedRows(active, {1});
    SingleGroup(a.sorted[0]);
    SingleListing(a.sorted[0]);
  }

  lemma DeactivatedCounted()
    ensures |EntryUsers(Rows(Deactivated(), LinkedQuestions(Deactivated(), 0)))| == 2
  {
    var db := Deactivated();
    var linked := LinkedQuestions(db, 0);
    hide Deactivated, LinkedQuestions, ExamQuestions, Participants, Joined, EntryUsers;
    DeactivatedSets();
    DeactivatedRows(linked, Participants(db));
    TwoUsers(Entry(Relation(1, 1), 80.0, 0), Entry(Relation(2, 2), 90.0, 0));
  }

  /** User 2 is counted but not listed. */
  lemma ExamCountExceeds(a: Answers)
    requires a == OneListed()
    ensures Answered(Deactivated(), ExamQuestions(Deactivated(), 0), a)
    ensures |EntryUsers(Rows(Deactivated(), LinkedQuestions(Deactivated(), 0)))| == a.count > |a.list|
  {
    DeactivatedAnswered();
    DeactivatedCounted();
    hide Answered, Deactivated, LinkedQuestions, ExamQuestions, Rows, EntryUsers;
  }

  // ------------------------------------------------- totals never fall

  /** What the handlers and the judging goroutines write to the submissions. */
  datatype Write =
    | Insert(rel: Id, createdAt: int)     // a submission or a rescore
    | Store(row: nat, score: real)        // Updates(UserQuestionTable{Score: score, ...}): a zero field is skipped

  function Apply(db: Database, w: Write): Database {
    match w
    case Insert(rel, createdAt) => db.(submissions := db.submissions + [Submission(rel, PENDING, createdAt)])
    case Store(row, score) =>
      if row < |db.submissions| && score != 0.0
      then db.(submissions := db.submissions[row := db.submissions[row].(score := score)])
      else db
  }

  function Exec(db: Database, writes: seq<Write>): Database {
    if writes == [] then db else Apply(Exec(db, writes[..|writes| - 1]), writes[|writes| - 1])
  }

  /** The score a write gives to a row of this database, if any. */
  function ScoreBy(db: Database, w: Write, row: nat): seq<real> {
    match w
    case Insert(_, _) => if row == |db.submissions| then [PENDING] else []
    case Store(r, score) => if r == row && row < |db.submissions| && score != 0.0 then [score] else []
  }

  /** The scores a row goes through. */
  function RowScores(db: Database, writes: seq<Write>, row: nat): seq<real> {
    if writes == [] then if row < |db.submissions| then [db.submissions[row].score] else [] else
    var rest, w := writes[..|writes| - 1], writes[|writes| - 1];
    RowScores(db, rest, row) + ScoreBy(Exec(db, rest), w, row)
  }

  /** Each score but the last was one that may still be replaced. */
  predicate Replaces(scores: seq<real>) { forall k :: 0 <= k < |scores| - 1 ==> Open(scores[k]) }

  /** On every row, whatever happens on the others in between. */
  ghost predicate Orderly(db: Database, writes: seq<Write>) {
    forall row: nat :: Replaces(RowScores(db, writes, row))
  }

  lemma ExecOne(db: Database, writes: seq<Write>, w: Write)
    ensures Exec(db, writes + [w]) == Apply(Exec(db, writes), w)
    ensures forall row ::
              RowScores(db, writes + [w], row) == RowScores(db, writes, row) + ScoreBy(Exec(db, writes), w, row)
  {
    assert (writes + [w])[..|writes|] == writes;
  }

  /** A row's scores end with the one it has, and start with the one it had. */
  lemma {:induction false} ScoresOfRow(db: Database, writes: seq<Write>, row: nat)
    ensures var scores, t := RowScores(db, writes, row), Exec(db, writes);
      && t == db.(submissions := t.submissions) && |db.submissions| <= |t.submissions|
      && (scores != [] <==> row < |t.submissions|)
      && (row < |t.submissions| ==> scores[|scores| - 1] == t.submissions[row].score)
      && (row < |db.submissions| ==> scores[0] == db.submissions[row].score
                                     && t.submissions[row].rel == db.submissions[row].rel)
  {
    if writes != [] {
      ScoresOfRow(db, writes[..|writes| - 1], row);
    }
  }

  /** A write that replaces an open score keeps the order. */
  lemma OrderlyStep(db: Database, writes: seq<Write>, w: Write)
    requires Orderly(db, writes)
    requires var t := Exec(db, writes);
      w.Store? && w.row < |t.submissions| && w.score != 0.0 ==> Open(t.submissions[w.row].score)
    ensures Orderly(db, writes + [w])
  {
    ExecOne(db, writes, w);
    hide Exec, RowScores, Apply;
    forall row: nat ensures Replaces(RowScores(db, writes + [w], row)) {
      ScoresOfRow(db, writes, row);
      assert Replaces(RowScores(db, writes, row));
      ReplacesOne(RowScores(db, writes, row), ScoreBy(Exec(db, writes), w, row));
    }
  }

  lemma ReplacesOne(scores: seq<real>, x: seq<real>)
    requires Replaces(scores) && |x| <= 1 && (scores != [] && x != [] ==> Open(scores[|scores| - 1]))
    ensures Replaces(scores + x)
  {
  }

  /** Row by row, the later table is worth at least as much. */
  ghost predicate Grown(a: seq<Submission>, b: seq<Submission>) {
    |a| <= |b| && forall i :: 0 <= i < |a| ==> a[i].rel == b[i].rel && Clamp(a[i].score) <= Clamp(b[i].score)
  }

  lemma WritesGrow(db: Database, writes: seq<Write>)
    requires Orderly(db, writes)
    ensures var after := Exec(db, writes);
      after == db.(submissions := after.submissions) && Grown(db.submissions, after.submissions)
  {
    hide Orderly, Exec;
    ScoresOfRow(db, writes, 0);
    forall i | 0 <= i < |db.submissions| {
      RowGrows(db, writes, i);
    }
  }

  lemma OrderlyRow(db: Database, writes: seq<Write>, row: nat)
    requires Orderly(db, writes)
    ensures Replaces(RowScores(db, writes, row))
  {
    hide RowScores, Replaces;
  }

  lemma LastCountsMost(scores: seq<real>)
    requires scores != [] && Replaces(scores)
    ensures Clamp(scores[0]) <= Clamp(scores[|scores| - 1])
  {
  }

  lemma RowGrows(db: Database, writes: seq<Write>, i: nat)
    requires Orderly(db, writes) && i < |db.submissions|
    ensures i < |Exec(db, writes).submissions|
    ensures var a, b := db.submissions[i], Exec(db, writes).submissions[i];
      a.rel == b.rel && Clamp(a.score) <= Clamp(b.score)
  {
    hide Exec, RowScores, Orderly, Replaces, Clamp;
    ScoresOfRow(db, writes, i);
    OrderlyRow(db, writes, i);
    LastCountsMost(RowScores(db, writes, i));
  }

  lemma {:induction false} GrownRows(db: Database, a: seq<Submission>, b: seq<Submission>, questions: set<Id>,
                                     us: set<Id>, e: Entry)
    requires Grown(a, b) && e in Joined(db, a, questions, us)
    ensures exists f :: f in Joined(db, b, questions, us) && f.key == e.key && Clamp(e.score) <= Clamp(f.score)
    decreases |b|
  {
    var n := |b| - 1;
    var front := Joined(db, b[..n], questions, us);
    if |a| < |b| || e in Joined(db, a[..n], questions, us) {
      GrownRows(db, if |a| < |b| then a else a[..n], b[..n], questions, us, e);
      var f :| f in front && f.key == e.key && Clamp(e.score) <= Clamp(f.score);
      assert f in Joined(db, b, questions, us);
    } else {
      var f := Entry(e.key, b[n].score, b[n].createdAt);
      assert f in Joined(db, b, questions, us);
    }
  }

  /** Each row of a query is matched or bettered by a later one. */
  lemma RowsBetter(db: Database, writes: seq<Write>, questions: set<Id>)
    requires Orderly(db, writes)
    ensures forall e :: e in Rows(db, questions) ==>
              exists f :: f in Rows(Exec(db, writes), questions) && f.key == e.key && Clamp(e.score) <= Clamp(f.score)
  {
    var later := Exec(db, writes);
    WritesGrow(db, writes);
    hide Exec, Orderly;
    forall e | e in Rows(db, questions)
      ensures exists f :: f in Rows(later, questions) && f.key == e.key && Clamp(e.score) <= Clamp(f.score)
    {
      GrownRows(db, db.submissions, later.submissions, questions, Participants(db), e);
      JoinedSameTables(db, later, later.submissions, questions, Participants(db));
    }
  }

  /** Whatever is submitted, rescored or judged, in whatever interleaving: as long as every row only replaces open
      scores, no user's total goes down. */
  lemma TotalsNeverFall(db: Database, writes: seq<Write>, questions: set<Id>, before: seq<Best>, after: seq<Best>,
                        user: Id)
    requires Orderly(db, writes)
    requires IsGroupMax(Rows(db, questions), before) && IsGroupMax(Rows(Exec(db, writes), questions), after)
    ensures TotalOf(before, user) <= TotalOf(after, user)
    ensures user in Users(before) ==> user in Users(after)
  {
    var rows, rows' := Rows(db, questions), Rows(Exec(db, writes), questions);
    RowsBetter(db, writes, questions);
    RowsBelow(rows, before, rows', after, user);
    BestNonNegative(rows', after);
    TotalMonotone(before, after, user);
    if user in Users(before) {
      var b :| b in before && b.key.user == user;
      assert b.key in BestKeys(before);
      var e :| e in rows && e.key == b.key;
      UsersFromKeys(rows', after);
    }
  }

  lemma {:induction false} JoinedSameTables(db: Database, later: Database, subs: seq<Submission>, questions: set<Id>,
                                            us: set<Id>)
    requires later.relations == db.relations
    ensures Joined(db, subs, questions, us) == Joined(later, subs, questions, us)
  {
    if subs != [] {
      JoinedSameTables(db, later, subs[..|subs| - 1], questions, us);
    }
  }

  // ------------------------------------------------- between any two moments

  /** The scores of a run are those up to a moment and those from then on, which begin with the score of then. */
  lemma {:induction false} ScoresConcat(db: Database, earlier: seq<Write>, more: seq<Write>, row: nat)
    ensures Exec(db, earlier + more) == Exec(Exec(db, earlier), more)
    ensures var r, rest := RowScores(db, earlier, row), RowScores(Exec(db, earlier), more, row);
      RowScores(db, earlier + more, row) == if r == [] then rest else r[..|r| - 1] + rest
  {
    if more == [] {
      assert earlier + more == earlier;
      ScoresOfRow(db, earlier, row);
    } else {
      hide ScoreBy, Apply;
      var n := |more| - 1;
      ScoresConcat(db, earlier, more[..n], row);
      assert (earlier + more)[..|earlier + more| - 1] == earlier + more[..n];
      Joint(RowScores(db, earlier, row), RowScores(Exec(db, earlier), more[..n], row),
            ScoreBy(Exec(db, earlier + more[..n]), more[n], row));
    }
  }

  lemma Joint(r: seq<real>, rest: seq<real>, x: seq<real>)
    ensures r != [] ==> r[..|r| - 1] + rest + x == r[..|r| - 1] + (rest + x)
  {
  }

  lemma OrderlyFirst(db: Database, earlier: seq<Write>, more: seq<Write>)
    requires Orderly(db, earlier + more)
    ensures Orderly(db, earlier)
  {
    forall row: nat ensures Replaces(RowScores(db, earlier, row)) {
      ScoresConcat(db, earlier, more, row);
      ScoresOfRow(Exec(db, earlier), more, row);
      ScoresOfRow(db, earlier, row);
      assert Replaces(RowScores(db, earlier + more, row));
      HeadReplaces(RowScores(db, earlier, row), RowScores(Exec(db, earlier), more, row));
    }
  }

  lemma HeadReplaces(r: seq<real>, rest: seq<real>)
    requires r != [] ==> Replaces(r[..|r| - 1] + rest)
    requires r != [] ==> rest != [] && rest[0] == r[|r| - 1]
    ensures Replaces(r)
  {
    if r != [] {
      var all := r[..|r| - 1] + rest;
      forall k | 0 <= k < |r| - 1 ensures Open(r[k]) {
        assert r[k] == all[k];
      }
    }
  }

  lemma OrderlyRest(db: Database, earlier: seq<Write>, more: seq<Write>)
    requires Orderly(db, earlier + more)
    ensures Orderly(Exec(db, earlier), more)
    ensures Exec(db, earlier + more) == Exec(Exec(db, earlier), more)
  {
    ScoresConcat(db, earlier, more, 0);
    forall row: nat ensures Replaces(RowScores(Exec(db, earlier), more, row)) {
      var r, rest := RowScores(db, earlier, row), RowScores(Exec(db, earlier), more, row);
      ScoresConcat(db, earlier, more, row);
      assert Replaces(RowScores(db, earlier + more, row));
      hide RowScores, Exec, Replaces;
      TailReplaces(r, rest);
    }
  }

  lemma TailReplaces(r: seq<real>, rest: seq<real>)
    requires Replaces(if r == [] then rest else r[..|r| - 1] + rest)
    ensures Replaces(rest)
  {
    if r != [] {
      var all := r[..|r| - 1] + rest;
      forall k | 0 <= k < |rest| - 1 ensures Open(rest[k]) {
        assert rest[k] == all[|r| - 1 + k];
      }
    }
  }

  /** No total falls from any moment of an orderly run to any later one. */
  lemma TotalsNeverFallBetween(db: Database, earlier: seq<Write>, more: seq<Write>, questions: set<Id>,
                               before: seq<Best>, after: seq<Best>, user: Id)
    requires Orderly(db, earlier + more)
    requires IsGroupMax(Rows(Exec(db, earlier), questions), before)
    requires IsGroupMax(Rows(Exec(db, earlier + more), questions), after)
    ensures TotalOf(before, user) <= TotalOf(after, user)
    ensures user in Users(before) ==> user in Users(after)
  {
    OrderlyRest(db, earlier, more);
    TotalsNeverFall(Exec(db, earlier), more, questions, before, after, user);
  }

  /** A score that is not open is never replaced. */
  lemma FinalScoreStays(db: Database, earlier: seq<Write>, more: seq<Write>, row: nat)
    requires Orderly(db, earlier + more)
    requires row < |Exec(db, earlier).submissions| && !Open(Exec(db, earlier).submissions[row].score)
    ensures row < |Exec(db, earlier + more).submissions|
    ensures Exec(db, earlier + more).submissions[row].score == Exec(db, earlier).submissions[row].score
  {
    OrderlyRest(db, earlier, more);
    var t := Exec(db, earlier);
    ScoresOfRow(t, more, row);
    assert Replaces(RowScores(t, more, row));
  }
}
