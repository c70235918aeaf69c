/**
 * exam_start_view: grading a submitted quiz, the percentage score, the
 * interest-level and rating ladders, and the rows the view writes.
 */
module ExamViews {
  import opened Wrappers
  import opened ExamModels
  import opened ExamForms
  import Ordering
  import opened Arith

  /** int((correct / total) * 100), taken as integer percentage. */
  function ScorePercentage(correct: nat, total: nat): (score: nat)
    requires 0 < total && correct <= total
    ensures score <= 100
    ensures correct == total <==> score == 100
    ensures correct == 0 ==> score == 0
  {
    ScoreBelowHundred(correct, total);
    (100 * correct) / total
  }

  lemma ScoreBelowHundred(correct: nat, total: nat)
    requires 0 < total && correct <= total
    ensures (100 * correct) / total <= 100
    ensures correct < total ==> (100 * correct) / total < 100
    ensures correct == total ==> (100 * correct) / total == 100
  {
    DivMonotone(100 * correct, 100 * total, total);
    DivModUnique(100 * total, total, 100, 0);
    if correct < total {
      var q := (100 * correct) / total;
      assert total * q <= 100 * correct < 100 * total;
      if q >= 100 {
        MulMonotone(total, 100, q);
      }
    }
  }

  /** More correct answers out of the same total never lower the score. */
  lemma ScoreMonotone(c1: nat, c2: nat, total: nat)
    requires 0 < total && c1 <= c2 <= total
    ensures ScorePercentage(c1, total) <= ScorePercentage(c2, total)
  {
    DivMonotone(100 * c1, 100 * c2, total);
  }

  /** The three interest bands, from keenest to least. */
  datatype Interest = VeryKeen | Curious | NeedsBasics
  {
    function Rank(): nat
    {
      match this
      case NeedsBasics => 0
      case Curious => 1
      case VeryKeen => 2
    }

    function Message(): string
    {
      match this
      case VeryKeen => "متحمس جدًا لعالم التداول!"
      case Curious => "عندك فضول جيد، خلينا نشتغل على تعزيز قراراتك."
      case NeedsBasics => "يبدو إنك بحاجة لأساسيات أقوى، إحنا جاهزين نساعدك."
    }
  }

  /** Cut points 80 and 50. */
  function InterestLevel(score: int): Interest
  {
    if score >= 80 then VeryKeen else if score >= 50 then Curious else NeedsBasics
  }

  lemma InterestMonotone(s1: int, s2: int)
    requires s1 <= s2
    ensures InterestLevel(s1).Rank() <= InterestLevel(s2).Rank()
  {
  }

  lemma InterestBands(score: int)
    ensures InterestLevel(score) == VeryKeen <==> score >= 80
    ensures InterestLevel(score) == NeedsBasics <==> score < 50
  {
  }

  datatype Rating = Rating(value: nat, message: string)

  /** The message shown with each rating value. */
  const RatingMessage5: string := "مستوى احتراف ممتاز – قرارك سريع ومبني على قراءة واضحة."
  const RatingMessage4: string := "قرارك قوي، مع شوية صقل إضافي بنوصل للمرحلة الاحترافية."
  const RatingMessage3: string := "عندك أساس جيد، وبتحتاج دعم إضافي لتعزيز الثقة بالقرار."
  const RatingMessage2: string := "لا تشيل هم، بنساعدك تبني القرار الصح خطوة بخطوة."
  const RatingMessage1: string := "بداية قوية للتعرف على عالم التداول، خلينا نرسم الخطة مع بعض."

  /** The five-step rating: ≥90 → 5, ≥75 → 4, ≥55 → 3, ≥35 → 2, else 1. */
  function RatingFor(score: int): (r: Rating)
    ensures 1 <= r.value <= 5
  {
    if score >= 90 then Rating(5, RatingMessage5)
    else if score >= 75 then Rating(4, RatingMessage4)
    else if score >= 55 then Rating(3, RatingMessage3)
    else if score >= 35 then Rating(2, RatingMessage2)
    else Rating(1, RatingMessage1)
  }

  lemma RatingMonotone(s1: int, s2: int)
    requires s1 <= s2
    ensures RatingFor(s1).value <= RatingFor(s2).value
  {
  }

  /** Each rating value carries one message, so the value determines the message. */
  lemma RatingMessageDeterminedByValue(s1: int, s2: int)
    requires RatingFor(s1).value == RatingFor(s2).value
    ensures RatingFor(s1) == RatingFor(s2)
  {
  }

  /** One graded question as listed on the results page. */
  datatype QuestionResult = QuestionResult(question: Question, selected: Answer, isCorrect: bool)

  /** The results of a valid quiz form, question by question. */
  function Grade(questions: seq<Question>, post: map<string, string>): (rs: seq<QuestionResult>)
    requires ExamFormIsValid(questions, post)
    ensures |rs| == |questions|
    ensures forall i :: 0 <= i < |rs| ==> rs[i].question == questions[i]
    ensures forall i :: 0 <= i < |rs| ==> (rs[i].isCorrect <==> rs[i].selected == questions[i].correctAnswer)
  {
    seq(|questions|, i requires 0 <= i < |questions| =>
      var a := SelectedAnswer(questions[i], post);
      QuestionResult(questions[i], a, a == questions[i].correctAnswer))
  }

  /** The number of correct results. */
  function CorrectCount(rs: seq<QuestionResult>): (c: nat)
    ensures c <= |rs|
  {
    if |rs| == 0 then 0
    else CorrectCount(rs[..|rs| - 1]) + (if rs[|rs| - 1].isCorrect then 1 else 0)
  }

  lemma {:induction false} CorrectCountBounds(rs: seq<QuestionResult>)
    ensures CorrectCount(rs) == |rs| <==> forall i :: 0 <= i < |rs| ==> rs[i].isCorrect
    ensures CorrectCount(rs) == 0 <==> forall i :: 0 <= i < |rs| ==> !rs[i].isCorrect
  {
    if |rs| > 0 {
      var init := rs[..|rs| - 1];
      CorrectCountBounds(init);
      assert forall i :: 0 <= i < |init| ==> init[i] == rs[i];
    }
  }

  /** The submissions written for a participant's results, in question order. */
  function SubmissionsOf(participantId: nat, rs: seq<QuestionResult>): (ss: seq<Submission>)
    ensures |ss| == |rs|
    ensures forall i :: 0 <= i < |rs| ==>
      ss[i] == Submission(participantId, rs[i].question.id, rs[i].selected, rs[i].isCorrect)
  {
    seq(|rs|, i requires 0 <= i < |rs| =>
      Submission(participantId, rs[i].question.id, rs[i].selected, rs[i].isCorrect))
  }

  function NotOf(participantId: nat): Submission -> bool
  {
    (s: Submission) => s.participantId != participantId
  }

  /** The results page of a valid, non-empty quiz: the graded answers and the score ladders. */
  function Scored(questions: seq<Question>, post: map<string, string>): (o: StartOutcome)
    requires ExamFormIsValid(questions, post) && questions != []
    ensures o.Results? && o.totalQuestions == |questions| && o.correctCount <= o.totalQuestions
    ensures o.scorePercentage <= 100 && 1 <= o.rating.value <= 5
  {
    var rs := Grade(questions, post);
    var c := CorrectCount(rs);
    var score := ScorePercentage(c, |questions|);
    Results(c, |questions|, score, InterestLevel(score), RatingFor(score), rs)
  }

  /**
   * participant.save(update_fields=[...]) after grading: exactly the six
   * result fields change; name, phone, e-mail and created_at are kept.
   */
  function WithResult(p: Participant, o: StartOutcome, now: int): (q: Participant)
    requires o.Results?
    ensures q.id == p.id && q.name == p.name && q.phone == p.phone && q.email == p.email && q.createdAt == p.createdAt
    ensures q.lastScore == o.scorePercentage && q.lastCorrectAnswers == o.correctCount
    ensures q.lastTotalQuestions == o.totalQuestions && q.lastRatingValue == o.rating.value
    ensures q.lastRatingMessage == o.rating.message && q.lastResultAt == Some(now)
  {
    p.(lastScore := o.scorePercentage,
       lastCorrectAnswers := o.correctCount,
       lastTotalQuestions := o.totalQuestions,
       lastRatingValue := o.rating.value,
       lastRatingMessage := o.rating.message,
       lastResultAt := Some(now))
  }

  datatype StartOutcome =
    | RedirectToEntry
    | NotFound
    | EmptyExam
    | ShowForm
    | Results(correctCount: nat, totalQuestions: nat, scorePercentage: nat,
              interest: Interest, rating: Rating, results: seq<QuestionResult>)

  /**
   * exam_start_view.  sessionId is the session's exam_participant_id; isPost
   * and post are the request method and form data; now is timezone.now().
   */
  method ExamStart(db: ExamDatabase, sessionId: Option<int>, isPost: bool, post: map<string, string>, now: int)
    returns (outcome: StartOutcome)
    requires db.Valid()
    modifies db
    ensures db.Valid()
    ensures db.questions == old(db.questions) && db.nextParticipantId == old(db.nextParticipantId)
    ensures (sessionId.None? || sessionId == Some(0)) ==> outcome == RedirectToEntry && unchanged(db)
    ensures outcome.RedirectToEntry? || outcome.NotFound? || outcome.EmptyExam? || outcome.ShowForm? ==> unchanged(db)
    ensures outcome.NotFound? <==>
      sessionId.Some? && sessionId.value != 0 && FindById(old(db.participants), sessionId.value).None?
    ensures outcome.EmptyExam? ==> ActiveQuestions(db.questions) == []
    ensures sessionId.Some? && sessionId.value != 0 && FindById(old(db.participants), sessionId.value).Some? ==>
      var questions := ActiveQuestions(old(db.questions));
      && (questions == [] ==> outcome == EmptyExam)
      && (questions != [] && !(isPost && ExamFormIsValid(questions, post)) ==> outcome == ShowForm)
      && (questions != [] && isPost && ExamFormIsValid(questions, post) ==> outcome.Results?)
    ensures outcome.Results? ==> sessionId.Some? && FindById(old(db.participants), sessionId.value).Some?
    ensures outcome.Results? ==>
      var questions := ActiveQuestions(old(db.questions));
      isPost && questions != [] && ExamFormIsValid(questions, post) && outcome == Scored(questions, post)
    ensures outcome.Results? ==>
      var pid := sessionId.value;
      var i := FindById(old(db.participants), pid).value;
      && db.submissions == Ordering.Filter(old(db.submissions), NotOf(pid)) + SubmissionsOf(pid, outcome.results)
      && db.participants == old(db.participants)[i := WithResult(old(db.participants)[i], outcome, now)]
  {
    if sessionId.None? || sessionId.value == 0 {
      return RedirectToEntry;
    }
    var pid := sessionId.value;
    var found := FindById(db.participants, pid);
    if found.None? {
      return NotFound;
    }
    var idx := found.value;
    var questions := ActiveQuestions(db.questions);
    if questions == [] {
      return EmptyExam;
    }
    if !isPost || !ExamFormIsValid(questions, post) {
      return ShowForm;
    }
    assert pid >= 0;
    ActiveQuestionIdsUnique(db.questions);
    outcome := GradeAndRecord(db, pid, idx, questions, post, now);
  }

  /**
   * A valid POST for an existing participant with a non-empty quiz: the
   * submissions are replaced, the results computed, and the participant's
   * result fields saved.
   */
  method GradeAndRecord(db: ExamDatabase, pid: nat, idx: nat, questions: seq<Question>, post: map<string, string>, now: int)
    returns (outcome: StartOutcome)
    requires db.Valid() && idx < |db.participants| && db.participants[idx].id == pid
    requires QuestionIdsUnique(questions) && questions != [] && ExamFormIsValid(questions, post)
    modifies db
    ensures db.Valid()
    ensures db.questions == old(db.questions) && db.nextParticipantId == old(db.nextParticipantId)
    ensures outcome == Scored(questions, post)
    ensures db.submissions == Ordering.Filter(old(db.submissions), NotOf(pid)) + SubmissionsOf(pid, outcome.results)
    ensures db.participants == old(db.participants)[idx := WithResult(old(db.participants)[idx], outcome, now)]
  {
    var results, correctCount := ReplaceSubmissions(db, pid, questions, post);
    var score := ScorePercentage(correctCount, |questions|);
    outcome := Results(correctCount, |questions|, score, InterestLevel(score), RatingFor(score), results);
    var updated := WithResult(db.participants[idx], outcome, now);
    ReplaceKeepsKeys(db.participants, idx, updated, db.nextParticipantId);
    db.participants := db.participants[idx := updated];
  }

  /**
   * The write half of a valid POST: the participant's earlier submissions are
   * deleted, then one submission per question is created while the correct
   * answers are counted.
   */
  method ReplaceSubmissions(db: ExamDatabase, pid: nat, questions: seq<Question>, post: map<string, string>)
    returns (results: seq<QuestionResult>, correctCount: nat)
    requires db.Valid() && QuestionIdsUnique(questions) && ExamFormIsValid(questions, post)
    modifies db
    ensures db.Valid()
    ensures db.participants == old(db.participants) && db.questions == old(db.questions)
    ensures db.nextParticipantId == old(db.nextParticipantId)
    ensures results == Grade(questions, post)
    ensures correctCount == CorrectCount(results)
    ensures db.submissions == Ordering.Filter(old(db.submissions), NotOf(pid)) + SubmissionsOf(pid, results)
  {
    var subs := Ordering.Filter(db.submissions, NotOf(pid));
    ghost var kept := subs;
    results := [];
    correctCount := 0;
    var k := 0;
    while k < |questions|
      invariant 0 <= k <= |questions|
      invariant results == Grade(questions, post)[..k]
      invariant correctCount == CorrectCount(results)
      invariant subs == kept + SubmissionsOf(pid, results)
      invariant unchanged(db)
    {
      results, correctCount, subs := GradeQuestion(questions, post, pid, k, results, correctCount, subs, kept);
      k := k + 1;
    }
    assert Grade(questions, post)[..k] == Grade(questions, post);
    SubmissionsStayUnique(db.submissions, pid, results);
    db.submissions := subs;
  }

  /** One question of the loop: its answer graded, its submission created, the count kept. */
  method GradeQuestion(questions: seq<Question>, post: map<string, string>, pid: nat, k: nat,
                       results: seq<QuestionResult>, correctCount: nat, subs: seq<Submission>, ghost kept: seq<Submission>)
    returns (results': seq<QuestionResult>, correctCount': nat, subs': seq<Submission>)
    requires ExamFormIsValid(questions, post) && k < |questions|
    requires results == Grade(questions, post)[..k]
    requires correctCount == CorrectCount(results) && subs == kept + SubmissionsOf(pid, results)
    ensures results' == Grade(questions, post)[..k + 1]
    ensures correctCount' == CorrectCount(results') && subs' == kept + SubmissionsOf(pid, results')
  {
    var question := questions[k];
    var selected := SelectedAnswer(question, post);
    var isCorrect := selected == question.correctAnswer;
    var r := QuestionResult(question, selected, isCorrect);
    GradePrefixStep(questions, post, k);
    SubmissionsOfAppend(pid, results, r);
    CorrectCountAppend(results, r);
    results' := results + [r];
    subs' := subs + [Submission(pid, question.id, selected, isCorrect)];
    correctCount' := if isCorrect then correctCount + 1 else correctCount;
  }

  /** The grading of one more question appends that question's result. */
  lemma GradePrefixStep(questions: seq<Question>, post: map<string, string>, k: nat)
    requires ExamFormIsValid(questions, post) && k < |questions|
    ensures var a := SelectedAnswer(questions[k], post);
      Grade(questions, post)[..k + 1] == Grade(questions, post)[..k] + [QuestionResult(questions[k], a, a == questions[k].correctAnswer)]
  {
  }

  lemma SubmissionsOfAppend(pid: nat, rs: seq<QuestionResult>, r: QuestionResult)
    ensures SubmissionsOf(pid, rs + [r]) == SubmissionsOf(pid, rs) + [Submission(pid, r.question.id, r.selected, r.isCorrect)]
  {
  }

  lemma CorrectCountAppend(rs: seq<QuestionResult>, r: QuestionResult)
    ensures CorrectCount(rs + [r]) == CorrectCount(rs) + (if r.isCorrect then 1 else 0)
  {
    assert (rs + [r])[..|rs|] == rs;
  }

  /** Replacing a participant's rows with one row per distinct question keeps (participant, question) unique. */
  lemma SubmissionsStayUnique(subs: seq<Submission>, pid: nat, rs: seq<QuestionResult>)
    requires SubmissionPairsUnique(subs)
    requires forall i, j :: 0 <= i < j < |rs| ==> rs[i].question.id != rs[j].question.id
    ensures SubmissionPairsUnique(Ordering.Filter(subs, NotOf(pid)) + SubmissionsOf(pid, rs))
  {
    var kept := Ordering.Filter(subs, NotOf(pid));
    FilterKeepsPairsUnique(subs, NotOf(pid));
    var added := SubmissionsOf(pid, rs);
    var all := kept + added;
    forall i, j | 0 <= i < j < |all|
      ensures all[i].participantId != all[j].participantId || all[i].questionId != all[j].questionId
    {
      if j < |kept| {
        assert all[i] == kept[i] && all[j] == kept[j];
      } else if i < |kept| {
        assert all[i] in kept;
        assert NotOf(pid)(all[i]);
      } else {
        assert all[i] == added[i - |kept|] && all[j] == added[j - |kept|];
      }
    }
  }

  lemma {:induction false} FilterKeepsPairsUnique(subs: seq<Submission>, p: Submission -> bool)
    requires SubmissionPairsUnique(subs)
    ensures SubmissionPairsUnique(Ordering.Filter(subs, p))
  {
    if |subs| > 0 {
      FilterKeepsPairsUnique(subs[1..], p);
      var rest := Ordering.Filter(subs[1..], p);
      forall k | 0 <= k < |rest|
        ensures rest[k].participantId != subs[0].participantId || rest[k].questionId != subs[0].questionId
      {
        assert rest[k] in subs[1..];
      }
    }
  }
}
