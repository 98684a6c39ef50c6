/**
 * The question-selection rules of website/questions.py. The database queries
 * become input sequences in query order; `random.choice` and SQL's choice
 * among rows tied on the sort key become nondeterministic choices.
 */
module Questions {
  import opened Wrappers
  import opened Models
  import Text

  /** A row of the question-tag association table. */
  datatype QuestionTag = QuestionTag(tagId: int, questionId: int)

  // ---------------------------------------------------------------------------
  // Completed questions
  // ---------------------------------------------------------------------------

  /** get_all_completed_questions: the questions the user has a "Passed" submission for. */
  function CompletedQuestions(submissions: seq<Submission>, userId: int): (ids: set<int>)
    ensures forall q :: q in ids <==>
      exists s :: s in submissions && s.userId == userId && s.result == "Passed" && s.questionId == q
  {
    set s | s in submissions && s.userId == userId && s.result == "Passed" :: s.questionId
  }

  /**
   * One more submission completes its question exactly when it is the user's
   * and "Passed"; it never uncompletes anything.
   */
  lemma CompletedAfterSubmission(submissions: seq<Submission>, s: Submission, userId: int)
    ensures CompletedQuestions(submissions + [s], userId) ==
      CompletedQuestions(submissions, userId) + (if s.userId == userId && s.result == "Passed" then {s.questionId} else {})
  {
    var before, after := CompletedQuestions(submissions, userId), CompletedQuestions(submissions + [s], userId);
    forall q | q in before ensures q in after {
      var w :| w in submissions && w.userId == userId && w.result == "Passed" && w.questionId == q;
      assert w in submissions + [s];
    }
    if s.userId == userId && s.result == "Passed" {
      assert s in submissions + [s];
    }
  }

  // ---------------------------------------------------------------------------
  // Counting passed questions per tag
  // ---------------------------------------------------------------------------

  /** Step 3: the association rows of passed questions, in query order. */
  function PassedRows(questionTags: seq<QuestionTag>, passed: set<int>): (rows: seq<QuestionTag>)
    ensures forall r :: r in rows <==> r in questionTags && r.questionId in passed
    ensures |rows| <= |questionTags|
  {
    if questionTags == [] then []
    else
      var rest := PassedRows(questionTags[1..], passed);
      assert forall r :: r in questionTags <==> r == questionTags[0] || r in questionTags[1..];
      if questionTags[0].questionId in passed then [questionTags[0]] + rest else rest
  }

  /** The number of rows carrying `tag`. */
  function CountTag(rows: seq<QuestionTag>, tag: int): nat {
    if rows == [] then 0
    else CountTag(rows[..|rows| - 1], tag) + (if rows[|rows| - 1].tagId == tag then 1 else 0)
  }

  /** Counting over two runs of rows adds up, so a count never decreases as rows are read. */
  lemma {:induction false} CountTagAppend(a: seq<QuestionTag>, b: seq<QuestionTag>, tag: int)
    ensures CountTag(a + b, tag) == CountTag(a, tag) + CountTag(b, tag)
    ensures CountTag(a, tag) <= CountTag(a + b, tag)
    decreases |b|
  {
    if b == [] {
      assert a + b == a;
    } else {
      var n := |b| - 1;
      assert (a + b)[..|a + b| - 1] == a + b[..n];
      CountTagAppend(a, b[..n], tag);
    }
  }

  /** A tag is counted at most once per row, and not at all if no row carries it. */
  lemma {:induction false} CountTagBound(rows: seq<QuestionTag>, tag: int)
    ensures CountTag(rows, tag) <= |rows|
    ensures CountTag(rows, tag) == 0 <==> forall r :: r in rows ==> r.tagId != tag
  {
    if rows != [] {
      var n := |rows| - 1;
      CountTagBound(rows[..n], tag);
      assert forall r :: r in rows <==> r in rows[..n] || r == rows[n];
    }
  }

  /** The count map of steps 1 and 4: every tag, with the number of passed rows carrying it. */
  function CompletionCounts(allTags: seq<int>, rows: seq<QuestionTag>): (counts: map<int, nat>)
    ensures counts.Keys == set t | t in allTags
  {
    map t | t in allTags :: CountTag(rows, t)
  }

  /**
   * Steps 1 and 4 of get_next_question: every tag starts at 0, and each row
   * whose tag is in the map adds one to it; rows of other tags are ignored.
   */
  method CountCompletions(allTags: seq<int>, rows: seq<QuestionTag>) returns (counts: map<int, nat>)
    ensures counts == CompletionCounts(allTags, rows)
  {
    counts := map t | t in allTags :: 0;
    for i := 0 to |rows|
      invariant counts.Keys == set t | t in allTags
      invariant forall t :: t in counts ==> counts[t] == CountTag(rows[..i], t)
    {
      assert rows[..i + 1][..i] == rows[..i];
      var tag := rows[i].tagId;
      if tag in counts {
        counts := counts[tag := counts[tag] + 1];
      }
    }
    assert rows[..|rows|] == rows;
  }

  // ---------------------------------------------------------------------------
  // The least-practised tags
  // ---------------------------------------------------------------------------

  /** Step 5: `min(counts.values(), default=None)`. */
  function MinCount(tags: seq<int>, counts: map<int, nat>): (least: Option<nat>)
    requires forall t :: t in tags ==> t in counts
    ensures least.None? <==> tags == []
    ensures least.Some? ==> exists t :: t in tags && counts[t] == least.value
    ensures least.Some? ==> forall t :: t in tags ==> least.value <= counts[t]
  {
    if tags == [] then None
    else
      var rest := MinCount(tags[1..], counts);
      assert forall t :: t in tags <==> t == tags[0] || t in tags[1..];
      if rest.None? || counts[tags[0]] <= rest.value then Some(counts[tags[0]]) else rest
  }

  /** Step 6: the tags whose count is the minimum, in map order. */
  function LowestTags(tags: seq<int>, counts: map<int, nat>, least: Option<nat>): (lowest: seq<int>)
    requires forall t :: t in tags ==> t in counts
    ensures forall t :: t in lowest <==> t in tags && Some(counts[t]) == least
  {
    if tags == [] then []
    else
      var rest := LowestTags(tags[1..], counts, least);
      assert forall t :: t in tags <==> t == tags[0] || t in tags[1..];
      if Some(counts[tags[0]]) == least then [tags[0]] + rest else rest
  }

  /** There is a least-practised tag exactly when there is a tag. */
  lemma LowestTagsNonEmpty(tags: seq<int>, counts: map<int, nat>)
    requires forall t :: t in tags ==> t in counts
    ensures LowestTags(tags, counts, MinCount(tags, counts)) != [] <==> tags != []
  {
    var least := MinCount(tags, counts);
    if tags != [] {
      var t :| t in tags && counts[t] == least.value;
      assert t in LowestTags(tags, counts, least);
    }
  }

  // ---------------------------------------------------------------------------
  // The easiest question
  // ---------------------------------------------------------------------------

  /** `q` is in `qs` and no question of `qs` sorts before it by difficulty. */
  predicate Easiest(q: Question, qs: seq<Question>) {
    q in qs && forall c :: c in qs ==> Text.LexLeq(q.difficulty, c.difficulty)
  }

  /** The first of the easiest questions: a non-empty list always has one. */
  function FirstEasiest(qs: seq<Question>): (q: Question)
    requires qs != []
    ensures Easiest(q, qs)
  {
    if |qs| == 1 then
      Text.LexReflexive(qs[0].difficulty);
      assert forall c :: c in qs ==> c == qs[0];
      qs[0]
    else
      var rest := FirstEasiest(qs[1..]);
      assert forall c :: c in qs <==> c == qs[0] || c in qs[1..];
      Text.LexTotal(qs[0].difficulty, rest.difficulty);
      if Text.LexLeq(qs[0].difficulty, rest.difficulty) then
        Text.LexReflexive(qs[0].difficulty);
        assert forall c :: c in qs[1..] ==> Text.LexLeq(qs[0].difficulty, c.difficulty) by {
          forall c | c in qs[1..] ensures Text.LexLeq(qs[0].difficulty, c.difficulty) {
            Text.LexTrans(qs[0].difficulty, rest.difficulty, c.difficulty);
          }
        }
        qs[0]
      else
        rest
  }

  /** Step 8's query: the questions of the chosen tag the user has not passed; none without a tag. */
  function TagCandidates(questions: seq<Question>, questionTags: seq<QuestionTag>, tag: Option<int>,
                         passed: set<int>): (candidates: seq<Question>)
    ensures forall q :: q in candidates <==>
      q in questions && tag.Some? && QuestionTag(tag.value, q.id) in questionTags && q.id !in passed
  {
    if questions == [] then []
    else
      var q := questions[0];
      var rest := TagCandidates(questions[1..], questionTags, tag, passed);
      assert forall c :: c in questions <==> c == q || c in questions[1..];
      if tag.Some? && QuestionTag(tag.value, q.id) in questionTags && q.id !in passed then [q] + rest else rest
  }

  /**
   * get_next_question: count the user's passed questions per tag, pick one of
   * the tags with the fewest, and return the easiest question of that tag the
   * user has not passed; failing that, the easiest question of all. `tag` is
   * the tag picked in step 7.
   */
  method NextQuestion(userId: int, allTags: seq<int>, submissions: seq<Submission>,
                      questionTags: seq<QuestionTag>, questions: seq<Question>)
    returns (tag: Option<int>, question: Option<Question>, samples: seq<TestCase>)
    ensures
      var passed := CompletedQuestions(submissions, userId);
      var counts := CompletionCounts(allTags, PassedRows(questionTags, passed));
      && (tag.None? <==> allTags == [])
      && (tag.Some? ==> tag.value in LowestTags(allTags, counts, MinCount(allTags, counts)))
      && (tag.Some? ==> forall t :: t in allTags ==> counts[tag.value] <= counts[t])
    ensures
      var candidates := TagCandidates(questions, questionTags, tag, CompletedQuestions(submissions, userId));
      && (candidates != [] ==> question.Some? && Easiest(question.value, candidates))
      && (candidates == [] ==> (question.None? <==> questions == []))
      && (candidates == [] && question.Some? ==> Easiest(question.value, questions))
    ensures question.Some? ==> samples == SampleTests(question.value.testCases)
    ensures question.None? ==> samples == []
  {
    var passed := CompletedQuestions(submissions, userId);
    var rows := PassedRows(questionTags, passed);
    var counts := CountCompletions(allTags, rows);
    var least := MinCount(allTags, counts);
    var lowest := LowestTags(allTags, counts, least);
    LowestTagsNonEmpty(allTags, counts);
    if lowest == [] {
      tag := None;
    } else {
      var t :| t in lowest;
      tag := Some(t);
    }
    var candidates := TagCandidates(questions, questionTags, tag, passed);
    if candidates != [] {
      ghost var first := FirstEasiest(candidates);
      var q :| q in candidates && Easiest(q, candidates);
      question := Some(q);
    } else if questions != [] {
      ghost var first := FirstEasiest(questions);
      var q :| q in questions && Easiest(q, questions);
      question := Some(q);
    } else {
      question := None;
    }
    samples := if question.Some? then SampleTests(question.value.testCases) else [];
  }

  // ---------------------------------------------------------------------------
  // Grouping questions by tag name
  // ---------------------------------------------------------------------------

  /** The tag names of the rows, each once, in order of first appearance. */
  function Names(rows: seq<(string, Question)>): seq<string> {
    if rows == [] then []
    else
      var before := Names(rows[..|rows| - 1]);
      var name := rows[|rows| - 1].0;
      if name in before then before else before + [name]
  }

  /** The questions of the rows named `name`, in row order. */
  function GroupOf(rows: seq<(string, Question)>, name: string): seq<Question> {
    if rows == [] then []
    else GroupOf(rows[..|rows| - 1], name) + (if rows[|rows| - 1].0 == name then [rows[|rows| - 1].1] else [])
  }

  /** No name is listed twice. */
  predicate Distinct(names: seq<string>) {
    forall i, j :: 0 <= i < j < |names| ==> names[i] != names[j]
  }

  /** The summed lengths of the groups of `names`. */
  function TotalSize(names: seq<string>, groups: map<string, seq<Question>>): nat
    requires forall n :: n in names ==> n in groups
  {
    if names == [] then 0
    else TotalSize(names[..|names| - 1], groups) + |groups[names[|names| - 1]]|
  }

  /** Changing the group of a name not listed leaves the total alone. */
  lemma {:induction false} TotalSizeOther(names: seq<string>, groups: map<string, seq<Question>>, name: string,
                                           group: seq<Question>)
    requires forall n :: n in names ==> n in groups
    requires name !in names
    ensures TotalSize(names, groups[name := group]) == TotalSize(names, groups)
  {
    if names != [] {
      TotalSizeOther(names[..|names| - 1], groups, name, group);
    }
  }

  /** Appending one question to a listed name's group adds one to the total. */
  lemma {:induction false} TotalSizeGrow(names: seq<string>, groups: map<string, seq<Question>>, name: string,
                                          q: Question)
    requires forall n :: n in names ==> n in groups
    requires Distinct(names) && name in names
    ensures TotalSize(names, groups[name := groups[name] + [q]]) == TotalSize(names, groups) + 1
  {
    var n := |names| - 1;
    var grown := groups[name := groups[name] + [q]];
    if names[n] == name {
      assert name !in names[..n];
      TotalSizeOther(names[..n], groups, name, groups[name] + [q]);
    } else {
      TotalSizeGrow(names[..n], groups, name, q);
    }
  }

  /** A name is listed exactly when some row carries it; a name no row carries has no questions. */
  lemma {:induction false} NamesOfRows(rows: seq<(string, Question)>, name: string)
    ensures name in Names(rows) <==> exists r :: r in rows && r.0 == name
    ensures name !in Names(rows) ==> GroupOf(rows, name) == []
  {
    if rows != [] {
      var n := |rows| - 1;
      NamesOfRows(rows[..n], name);
      assert forall r :: r in rows <==> r in rows[..n] || r == rows[n];
    }
  }

  /** What the dict built from `prefix` satisfies. */
  predicate Grouped(prefix: seq<(string, Question)>, names: seq<string>, groups: map<string, seq<Question>>) {
    && names == Names(prefix)
    && Distinct(names)
    && groups.Keys == (set n | n in names)
    && (forall n :: n in groups ==> groups[n] == GroupOf(prefix, n) && groups[n] != [])
    && TotalSize(names, groups) == |prefix|
  }

  /** The names and dict after one more row: a new name gets an empty list, then the question is appended. */
  function AddRow(acc: (seq<string>, map<string, seq<Question>>), row: (string, Question))
    : (seq<string>, map<string, seq<Question>>)
  {
    var (names, groups) := acc;
    var names1 := if row.0 in groups then names else names + [row.0];
    var groups1 := if row.0 in groups then groups else groups[row.0 := []];
    (names1, groups1[row.0 := groups1[row.0] + [row.1]])
  }

  /** The names and dict built from `rows`, one row at a time. */
  function Grouping(rows: seq<(string, Question)>): (seq<string>, map<string, seq<Question>>) {
    if rows == [] then ([], map[])
    else AddRow(Grouping(rows[..|rows| - 1]), rows[|rows| - 1])
  }

  /** Reading one row keeps the invariant. */
  lemma GroupStep(prefix: seq<(string, Question)>, row: (string, Question),
                  names: seq<string>, groups: map<string, seq<Question>>)
    requires Grouped(prefix, names, groups)
    ensures Grouped(prefix + [row], AddRow((names, groups), row).0, AddRow((names, groups), row).1)
  {
    if row.0 in groups {
      GroupStepKnown(prefix, row, names, groups);
    } else {
      assert [] + [row.1] == [row.1];
      assert groups[row.0 := []][row.0 := [] + [row.1]] == groups[row.0 := [row.1]];
      GroupStepFresh(prefix, row, names, groups);
    }
  }

  /** The dict built from any rows is grouped: by induction on the rows read. */
  lemma {:induction false} GroupingGrouped(rows: seq<(string, Question)>)
    ensures Grouped(rows, Grouping(rows).0, Grouping(rows).1)
  {
    if rows != [] {
      var n := |rows| - 1;
      GroupingGrouped(rows[..n]);
      GroupStep(rows[..n], rows[n], Grouping(rows[..n]).0, Grouping(rows[..n]).1);
      assert rows[..n] + [rows[n]] == rows;
    }
  }

  /** A row whose name is already listed only grows that name's list. */
  lemma GroupStepKnown(prefix: seq<(string, Question)>, row: (string, Question),
                       names: seq<string>, groups: map<string, seq<Question>>)
    requires Grouped(prefix, names, groups) && row.0 in groups
    ensures Grouped(prefix + [row], names, groups[row.0 := groups[row.0] + [row.1]])
  {
    var (name, q) := row;
    var rows := prefix + [row];
    assert rows[..|rows| - 1] == prefix;
    var grown := groups[name := groups[name] + [q]];
    assert names == Names(rows);
    forall n | n in grown ensures grown[n] == GroupOf(rows, n) && grown[n] != [] {
      assert GroupOf(rows, n) == GroupOf(prefix, n) + (if name == n then [q] else []);
    }
    TotalSizeGrow(names, groups, name, q);
  }

  /** A row with a new name lists the name last, with a list holding just its question. */
  lemma GroupStepFresh(prefix: seq<(string, Question)>, row: (string, Question),
                       names: seq<string>, groups: map<string, seq<Question>>)
    requires Grouped(prefix, names, groups) && row.0 !in groups
    ensures Grouped(prefix + [row], names + [row.0], groups[row.0 := [row.1]])
  {
    assert row.0 !in names;
    NamesOfRows(prefix, row.0);
    FreshNames(prefix, row);
    GroupStepNew(names, row.0);
    assert groups[row.0 := [row.1]].Keys == set n | n in names + [row.0];
    FreshGroups(prefix, row, groups);
    FreshTotal(names, groups, row.0, row.1);
  }

  /** A row with a name not seen before lists that name last. */
  lemma FreshNames(prefix: seq<(string, Question)>, row: (string, Question))
    requires row.0 !in Names(prefix)
    ensures Names(prefix + [row]) == Names(prefix) + [row.0]
  {
    var rows := prefix + [row];
    assert rows[..|rows| - 1] == prefix;
  }

  /** After a row with a new name, every list is the rows' group for its name. */
  lemma FreshGroups(prefix: seq<(string, Question)>, row: (string, Question), groups: map<string, seq<Question>>)
    requires forall n :: n in groups ==> groups[n] == GroupOf(prefix, n) && groups[n] != []
    requires GroupOf(prefix, row.0) == []
    ensures forall n :: n in groups[row.0 := [row.1]] ==>
      groups[row.0 := [row.1]][n] == GroupOf(prefix + [row], n) && groups[row.0 := [row.1]][n] != []
  {
    var rows := prefix + [row];
    assert rows[..|rows| - 1] == prefix;
    forall n | n in groups[row.0 := [row.1]]
      ensures groups[row.0 := [row.1]][n] == GroupOf(rows, n)
    {
      assert GroupOf(rows, n) == GroupOf(prefix, n) + (if row.0 == n then [row.1] else []);
    }
  }

  /** Listing a new name with one question adds one to the total. */
  lemma FreshTotal(names: seq<string>, groups: map<string, seq<Question>>, name: string, q: Question)
    requires forall n :: n in names ==> n in groups
    requires name !in names
    ensures TotalSize(names + [name], groups[name := [q]]) == TotalSize(names, groups) + 1
  {
    var names1 := names + [name];
    assert names1[..|names1| - 1] == names;
    TotalSizeOther(names, groups, name, [q]);
  }

  /** Listing a new name keeps the names distinct. */
  lemma GroupStepNew(names: seq<string>, name: string)
    requires Distinct(names) && name !in names
    ensures Distinct(names + [name])
  {
  }

  /**
   * get_all_tags_with_questions: the rows (already ordered by tag name and
   * difficulty) grouped by tag name. The dict is its keys in insertion order
   * and the lists under them; every list is non-empty, keeps row order, and
   * the lists together hold every row once.
   */
  method GroupByTag(rows: seq<(string, Question)>) returns (names: seq<string>, groups: map<string, seq<Question>>)
    ensures (names, groups) == Grouping(rows)
    ensures names == Names(rows) && Distinct(names)
    ensures groups.Keys == set n | n in names
    ensures forall n :: n in names <==> exists r :: r in rows && r.0 == n
    ensures forall n :: n in groups ==> groups[n] == GroupOf(rows, n) && groups[n] != []
    ensures TotalSize(names, groups) == |rows|
  {
    names := [];
    groups := map[];
    for i := 0 to |rows|
      invariant (names, groups) == Grouping(rows[..i])
    {
      assert rows[..i + 1][..i] == rows[..i];
      var (name, q) := rows[i];
      if name !in groups {
        groups := groups[name := []];
        names := names + [name];
      }
      groups := groups[name := groups[name] + [q]];
    }
    assert rows[..|rows|] == rows;
    GroupingGrouped(rows);
    GroupedRows(rows, names, groups);
  }

  /** What the loop's invariant says once every row is read. */
  lemma GroupedRows(rows: seq<(string, Question)>, names: seq<string>, groups: map<string, seq<Question>>)
    requires Grouped(rows, names, groups)
    ensures names == Names(rows) && Distinct(names)
    ensures groups.Keys == set n | n in names
    ensures forall n :: n in names <==> exists r :: r in rows && r.0 == n
    ensures forall n :: n in groups ==> groups[n] == GroupOf(rows, n) && groups[n] != []
    ensures TotalSize(names, groups) == |rows|
  {
    forall n ensures n in names <==> exists r :: r in rows && r.0 == n {
      NamesOfRows(rows, n);
    }
  }
}
