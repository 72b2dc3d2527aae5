/** The leaderboard queries of handlers/score.go and handlers/exam.go. Submissions are a sequence of rows, the
    other tables maps by primary key; what SQL leaves open (row order, ties) is left open here. */
module Leaderboard {
  import opened JudgeRun

  type Id = nat

  datatype User = User(name: string, isPublic: bool, isAdmin: bool)
  datatype Relation = Relation(user: Id, question: Id)
  datatype Submission = Submission(rel: Id, score: real, createdAt: int)

  datatype Database = Database(
    submissions: seq<Submission>,
    relations: map<Id, Relation>,
    questions: map<Id, bool>,               // is_active
    users: map<Id, User>,
    examQuestions: map<(Id, Id), int>)      // (exam, question): point

  /** A submission joined with its relation. */
  datatype Entry = Entry(key: Relation, score: real, createdAt: int)

  /** One row of a grouped query: a user, a question and the best score, clamped. */
  datatype Best = Best(key: Relation, score: real)

  // ------------------------------------------------- which rows count

  /** The public leaderboard: active questions that belong to no exam. */
  function PublicQuestions(db: Database): set<Id> {
    set q | q in db.questions && db.questions[q] && forall e :: e in db.examQuestions ==> e.1 != q
  }

  /** An exam's leaderboard: its active questions. */
  function ExamQuestions(db: Database, exam: Id): set<Id> {
    set q | q in db.questions && db.questions[q] && (exam, q) in db.examQuestions
  }

  /** The exam's count query does not look at is_active. */
  function LinkedQuestions(db: Database, exam: Id): set<Id> {
    set e | e in db.examQuestions && e.0 == exam :: e.1
  }

  function Participants(db: Database): set<Id> {
    set u | u in db.users && !db.users[u].isAdmin
  }

  /** The joins: rows whose relation exists and names one of the questions and one of the users. */
  function Joined(db: Database, subs: seq<Submission>, questions: set<Id>, users: set<Id>): seq<Entry> {
    if subs == [] then [] else
    var s := subs[|subs| - 1];
    var front := Joined(db, subs[..|subs| - 1], questions, users);
    if s.rel in db.relations && db.relations[s.rel].question in questions && db.relations[s.rel].user in users
    then front + [Entry(db.relations[s.rel], s.score, s.createdAt)] else front
  }

  function Rows(db: Database, questions: set<Id>): seq<Entry> {
    Joined(db, db.submissions, questions, Participants(db))
  }

  // ------------------------------------------------- DISTINCT ON ... ORDER BY

  /** ORDER BY user, question, score DESC, created_at ASC. */
  predicate InOrder(a: Entry, b: Entry) {
    a.key.user < b.key.user || (a.key.user == b.key.user &&
      (a.key.question < b.key.question || (a.key.question == b.key.question &&
        (a.score > b.score || (a.score == b.score && a.createdAt <= b.createdAt)))))
  }

  ghost predicate Sorted(es: seq<Entry>) { forall i, j :: 0 <= i < j < |es| ==> InOrder(es[i], es[j]) }

  /** DISTINCT ON (user, question): the first row of every run of equal keys. */
  function DistinctOn(es: seq<Entry>): seq<Best> {
    if es == [] then [] else
    var n := |es| - 1;
    if n > 0 && es[n].key == es[n - 1].key then DistinctOn(es[..n])
    else DistinctOn(es[..n]) + [Best(es[n].key, Clamp(es[n].score))]
  }

  // ------------------------------------------------- GROUP BY ... MAX

  function Keys(es: seq<Entry>): set<Relation> { set e | e in es :: e.key }

  function BestKeys(bs: seq<Best>): set<Relation> { set b | b in bs :: b.key }

  ghost predicate DistinctKeys(bs: seq<Best>) { forall i, j :: 0 <= i < j < |bs| ==> bs[i].key != bs[j].key }

  ghost predicate IsMax(es: seq<Entry>, k: Relation, m: real) {
    && (exists e :: e in es && e.key == k && e.score == m)
    && (forall e :: e in es && e.key == k ==> e.score <= m)
  }

  ghost predicate IsBest(es: seq<Entry>, b: Best) {
    exists m :: IsMax(es, b.key, m) && b.score == Clamp(m)
  }

  /** One row for each group, holding GREATEST(MAX(score), 0), in any order. */
  ghost predicate IsGroupMax(es: seq<Entry>, bs: seq<Best>) {
    && DistinctKeys(bs)
    && BestKeys(bs) == Keys(es)
    && (forall b :: b in bs ==> IsBest(es, b))
  }

  /** The two ways of taking the best row of each group agree. */
  lemma {:induction false} DistinctOnGroups(es: seq<Entry>)
    requires Sorted(es)
    ensures IsGroupMax(es, DistinctOn(es))
  {
    if es != [] {
      var n := |es| - 1;
      DistinctOnGroups(es[..n]);
      assert es == es[..n] + [es[n]];
      if n > 0 && es[n].key == es[n - 1].key {
        assert es[..n][n - 1] == es[n - 1];
        GroupGrows(es[..n], DistinctOn(es), es[n]);
      } else {
        NewKey(es);
        GroupStarts(es[..n], DistinctOn(es[..n]), es[n]);
      }
    }
  }

  /** In a sorted list a key that differs from its neighbour's has not been seen before. */
  lemma NewKey(es: seq<Entry>)
    requires Sorted(es) && es != []
    requires |es| > 1 ==> es[|es| - 1].key != es[|es| - 2].key
    ensures es[|es| - 1].key !in Keys(es[..|es| - 1])
  {
    var n := |es| - 1;
    forall i | 0 <= i < n ensures es[i].key != es[n].key {
      assert i < n - 1 ==> InOrder(es[i], es[n - 1]);
      assert InOrder(es[n - 1], es[n]);
    }
  }

  lemma GroupGrows(front: seq<Entry>, bs: seq<Best>, x: Entry)
    requires IsGroupMax(front, bs)
    requires front != [] && var p := front[|front| - 1]; p.key == x.key && x.score <= p.score
    ensures IsGroupMax(front + [x], bs)
  {
    var es := front + [x];
    assert front[|front| - 1] in front;
    assert Keys(es) == Keys(front);
    forall b | b in bs ensures IsBest(es, b) {
      var m :| IsMax(front, b.key, m) && b.score == Clamp(m);
      assert IsMax(es, b.key, m);
    }
  }

  lemma GroupStarts(front: seq<Entry>, bs: seq<Best>, x: Entry)
    requires IsGroupMax(front, bs) && x.key !in Keys(front)
    ensures IsGroupMax(front + [x], bs + [Best(x.key, Clamp(x.score))])
  {
    var es, y := front + [x], Best(x.key, Clamp(x.score));
    var all := bs + [y];
    assert x in es && y in all;
    assert Keys(es) == Keys(front) + {x.key};
    assert BestKeys(all) == BestKeys(bs) + {y.key};
    forall i | 0 <= i < |bs| ensures bs[i].key != y.key {
      assert bs[i].key in BestKeys(bs);
    }
    forall b | b in bs ensures IsBest(es, b) {
      assert b.key in BestKeys(bs);
      var m :| IsMax(front, b.key, m) && b.score == Clamp(m);
      assert IsMax(es, b.key, m);
    }
    assert IsMax(es, y.key, x.score);
  }

  // ------------------------------------------------- totals

  /** SUM(max_score) of one user's group. */
  function TotalOf(bs: seq<Best>, user: Id): real {
    if bs == [] then 0.0 else
    TotalOf(bs[..|bs| - 1], user) + if bs[|bs| - 1].key.user == user then bs[|bs| - 1].score else 0.0
  }

  /** Every score of the user in `a` is matched, or bettered, for the same question in `b`. */
  ghost predicate Below(a: seq<Best>, b: seq<Best>, user: Id) {
    forall x :: x in a && x.key.user == user ==> exists y :: y in b && y.key == x.key && x.score <= y.score
  }

  lemma {:induction false} TotalWithout(bs: seq<Best>, i: nat, user: Id)
    requires i < |bs|
    ensures TotalOf(bs, user) ==
            TotalOf(bs[..i] + bs[i + 1..], user) + if bs[i].key.user == user then bs[i].score else 0.0
  {
    var n := |bs| - 1;
    if i == n {
      assert bs[..i] + bs[i + 1..] == bs[..n];
    } else {
      TotalWithout(bs[..n], i, user);
      assert (bs[..i] + bs[i + 1..])[..n - 1] == bs[..n][..i] + bs[..n][i + 1..];
    }
  }

  lemma {:induction false} TotalNonNegative(bs: seq<Best>, user: Id)
    requires forall b :: b in bs ==> b.score >= 0.0
    ensures TotalOf(bs, user) >= 0.0
  {
    if bs != [] {
      assert bs[|bs| - 1] in bs;
      TotalNonNegative(bs[..|bs| - 1], user);
    }
  }

  /** Domination carries over from the groups to the sums. */
  lemma {:induction false} TotalMonotone(a: seq<Best>, b: seq<Best>, user: Id)
    requires DistinctKeys(a) && DistinctKeys(b) && Below(a, b, user)
    requires forall y :: y in b ==> y.score >= 0.0
    ensures TotalOf(a, user) <= TotalOf(b, user)
    decreases |a|
  {
    if a == [] {
      TotalNonNegative(b, user);
    } else {
      var n := |a| - 1;
      var x := a[n];
      assert x in a;
      if x.key.user != user {
        TotalMonotone(a[..n], b, user);
      } else {
        var y :| y in b && y.key == x.key && x.score <= y.score;
        var i :| 0 <= i < |b| && b[i] == y;
        TotalWithout(b, i, user);
        BelowWithout(a, b, i, user);
        TotalMonotone(a[..n], b[..i] + b[i + 1..], user);
      }
    }
  }

  lemma BelowWithout(a: seq<Best>, b: seq<Best>, i: nat, user: Id)
    requires DistinctKeys(a) && DistinctKeys(b) && Below(a, b, user) && a != []
    requires i < |b| && b[i].key == a[|a| - 1].key
    ensures DistinctKeys(b[..i] + b[i + 1..])
    ensures Below(a[..|a| - 1], b[..i] + b[i + 1..], user)
    ensures forall y :: y in b[..i] + b[i + 1..] ==> y in b
  {
    var rest, n := b[..i] + b[i + 1..], |a| - 1;
    forall x | x in a[..n] && x.key.user == user ensures exists y :: y in rest && y.key == x.key && x.score <= y.score {
      var y :| y in b && y.key == x.key && x.score <= y.score;
      var j :| 0 <= j < |b| && b[j] == y;
      var k :| 0 <= k < n && a[k] == x;
      assert j != i;
      assert y == rest[if j < i then j else j - 1];
    }
  }

  /** Two grouped queries over rows that agree on one user's submissions give that user the same total. */
  lemma SameTotal(es: seq<Entry>, a: seq<Best>, fs: seq<Entry>, b: seq<Best>, user: Id)
    requires IsGroupMax(es, a) && IsGroupMax(fs, b)
    requires forall e: Entry :: e.key.user == user ==> (e in es <==> e in fs)
    ensures TotalOf(a, user) == TotalOf(b, user)
  {
    BestNonNegative(es, a);
    BestNonNegative(fs, b);
    RowsBelow(es, a, fs, b, user);
    RowsBelow(fs, b, es, a, user);
    TotalMonotone(a, b, user);
    TotalMonotone(b, a, user);
  }

  lemma BestNonNegative(es: seq<Entry>, bs: seq<Best>)
    requires IsGroupMax(es, bs)
    ensures forall b :: b in bs ==> b.score >= 0.0
  {
    forall b | b in bs ensures b.score >= 0.0 {
      assert IsBest(es, b);
    }
  }

  /** If each of the user's rows is matched or bettered, so is each of the user's groups. */
  lemma RowsBelow(es: seq<Entry>, a: seq<Best>, fs: seq<Entry>, b: seq<Best>, user: Id)
    requires IsGroupMax(es, a) && IsGroupMax(fs, b)
    requires forall e :: e in es && e.key.user == user ==>
               exists f :: f in fs && f.key == e.key && Clamp(e.score) <= Clamp(f.score)
    ensures Below(a, b, user)
  {
    forall x | x in a && x.key.user == user ensures exists y :: y in b && y.key == x.key && x.score <= y.score {
      assert IsBest(es, x);
      var m :| IsMax(es, x.key, m) && x.score == Clamp(m);
      var e :| e in es && e.key == x.key && e.score == m;
      var f :| f in fs && f.key == e.key && Clamp(e.score) <= Clamp(f.score);
      assert f.key in BestKeys(b);
      var y :| y in b && y.key == f.key;
      assert IsBest(fs, y);
    }
  }

  // ------------------------------------------------- what a grouped answer holds

  /** Each score shown is 0 or a submission's own score, and neither 0 nor any submission of that user to that question
      is more. */
  lemma BestExactly(es: seq<Entry>, bs: seq<Best>, b: Best)
    requires IsGroupMax(es, bs) && b in bs
    ensures b.score >= 0.0
    ensures forall e :: e in es && e.key == b.key ==> e.score <= b.score
    ensures b.score == 0.0 || exists e :: e in es && e.key == b.key && e.score == b.score
    ensures exists e :: e in es && e.key == b.key
  {
    assert IsBest(es, b);
    var m :| IsMax(es, b.key, m) && b.score == Clamp(m);
    ClampIsGreatest(m);
  }

  /** The joins keep a submission exactly when its relation exists and names one of the questions and users. */
  lemma {:induction false} JoinedExactly(db: Database, subs: seq<Submission>, questions: set<Id>, users: set<Id>,
                                         e: Entry)
    ensures e in Joined(db, subs, questions, users) <==>
              && e.key.question in questions && e.key.user in users
              && exists s :: s in subs && s.rel in db.relations && db.relations[s.rel] == e.key
                             && s.score == e.score && s.createdAt == e.createdAt
  {
    if subs != [] {
      var n := |subs| - 1;
      JoinedExactly(db, subs[..n], questions, users, e);
      assert subs == subs[..n] + [subs[n]];
    }
  }

  /** The public rows: submissions of existing users that are no administrators, to active questions in no exam. */
  lemma PublicRows(db: Database, e: Entry)
    ensures e in Rows(db, PublicQuestions(db)) <==>
              && e.key.question in db.questions && db.questions[e.key.question]
              && (forall x :: x in db.examQuestions ==> x.1 != e.key.question)
              && e.key.user in db.users && !db.users[e.key.user].isAdmin
              && exists s :: s in db.submissions && s.rel in db.relations && db.relations[s.rel] == e.key
                             && s.score == e.score && s.createdAt == e.createdAt
  {
    JoinedExactly(db, db.submissions, PublicQuestions(db), Participants(db), e);
  }

  /** The exam's rows: the same for active questions of the exam. */
  lemma ExamRows(db: Database, exam: Id, e: Entry)
    ensures e in Rows(db, ExamQuestions(db, exam)) <==>
              && e.key.question in db.questions && db.questions[e.key.question]
              && (exam, e.key.question) in db.examQuestions
              && e.key.user in db.users && !db.users[e.key.user].isAdmin
              && exists s :: s in db.submissions && s.rel in db.relations && db.relations[s.rel] == e.key
                             && s.score == e.score && s.createdAt == e.createdAt
  {
    JoinedExactly(db, db.submissions, ExamQuestions(db, exam), Participants(db), e);
  }

  /** The exam's count looks at all of its questions, active or not. */
  lemma LinkedRows(db: Database, exam: Id, e: Entry)
    ensures e in Rows(db, LinkedQuestions(db, exam)) <==>
              && (exam, e.key.question) in db.examQuestions
              && e.key.user in db.users && !db.users[e.key.user].isAdmin
              && exists s :: s in db.submissions && s.rel in db.relations && db.relations[s.rel] == e.key
                             && s.score == e.score && s.createdAt == e.createdAt
  {
    JoinedExactly(db, db.submissions, LinkedQuestions(db, exam), Participants(db), e);
  }
}
