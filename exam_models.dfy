/**
 * The trading-quiz entities: participants (unique per phone), questions
 * with a buy/sell correct answer, and one submission per
 * (participant, question) pair.
 */
module ExamModels {
  import opened Wrappers
  import Ordering

  /** ExamQuestion.ANSWER_CHOICES: the stored values 'buy' and 'sell'. */
  datatype Answer = Buy | Sell

  function AnswerValue(a: Answer): string
  {
    match a
    case Buy => "buy"
    case Sell => "sell"
  }

  /** ChoiceField cleaning: only the two stored values are accepted. */
  function ParseAnswer(s: string): (r: Option<Answer>)
    ensures r.Some? ==> AnswerValue(r.value) == s
    ensures (exists a :: AnswerValue(a) == s) ==> r.Some?
  {
    if s == "buy" then Some(Buy)
    else if s == "sell" then Some(Sell)
    else None
  }

  lemma ParseAnswerValue(a: Answer)
    ensures ParseAnswer(AnswerValue(a)) == Some(a)
  {
  }

  datatype Participant = Participant(
    id: nat,
    name: string,
    phone: string,
    email: Option<string>,
    createdAt: int,
    lastScore: nat,
    lastCorrectAnswers: nat,
    lastTotalQuestions: nat,
    lastRatingValue: nat,
    lastRatingMessage: string,
    lastResultAt: Option<int>)

  /** A participant row as created: the result fields hold their defaults. */
  function NewParticipant(id: nat, name: string, phone: string, email: Option<string>, now: int): (p: Participant)
    ensures p.id == id && p.name == name && p.phone == phone && p.email == email && p.createdAt == now
    ensures p.lastScore == 0 && p.lastCorrectAnswers == 0 && p.lastTotalQuestions == 0 && p.lastRatingValue == 0
    ensures p.lastRatingMessage == "" && p.lastResultAt == None
  {
    Participant(id, name, phone, email, now, 0, 0, 0, 0, "", None)
  }

  datatype Question = Question(id: nat, title: string, correctAnswer: Answer, order: nat, isActive: bool)

  datatype Submission = Submission(participantId: nat, questionId: nat, selectedAnswer: Answer, isCorrect: bool)

  /** phone = CharField(unique=True). */
  predicate PhonesUnique(ps: seq<Participant>)
  {
    forall i, j :: 0 <= i < j < |ps| ==> ps[i].phone != ps[j].phone
  }

  predicate ParticipantIdsUnique(ps: seq<Participant>)
  {
    forall i, j :: 0 <= i < j < |ps| ==> ps[i].id != ps[j].id
  }

  predicate QuestionIdsUnique(qs: seq<Question>)
  {
    forall i, j :: 0 <= i < j < |qs| ==> qs[i].id != qs[j].id
  }

  /** Every primary key is positive and below the next one to be assigned. */
  predicate IdsBelow(ps: seq<Participant>, nextId: int)
  {
    forall i :: 0 <= i < |ps| ==> 0 < ps[i].id < nextId
  }

  /** unique_together = ('participant', 'question'). */
  predicate SubmissionPairsUnique(ss: seq<Submission>)
  {
    forall i, j :: 0 <= i < j < |ss| ==>
      ss[i].participantId != ss[j].participantId || ss[i].questionId != ss[j].questionId
  }

  /** Meta.ordering = ['order', 'id']. */
  function QuestionKey(q: Question): Ordering.Key
  {
    Ordering.Key(q.order, q.id)
  }

  /** Meta.ordering = ['-created_at']: newest first. */
  function ParticipantKey(p: Participant): Ordering.Key
  {
    Ordering.Key(-p.createdAt, 0)
  }

  /** ExamQuestion.objects.filter(is_active=True), in Meta order. */
  function ActiveQuestions(qs: seq<Question>): (r: seq<Question>)
    ensures forall q :: q in r <==> q in qs && q.isActive
    ensures Ordering.SortedBy(r, QuestionKey)
  {
    var active := Ordering.Filter(qs, IsActive);
    var r := Ordering.SortBy(active, QuestionKey);
    assert forall q :: q in r <==> q in multiset(r);
    assert forall q :: q in active <==> q in multiset(active);
    assert forall q :: q in active <==> q in qs && IsActive(q);
    r
  }

  function IsActive(q: Question): bool { q.isActive }

  /** The active questions of a table with distinct ids have distinct ids. */
  lemma ActiveQuestionIdsUnique(qs: seq<Question>)
    requires QuestionIdsUnique(qs)
    ensures QuestionIdsUnique(ActiveQuestions(qs))
  {
    var active := Ordering.Filter(qs, IsActive);
    FilterKeepsIdsUnique(qs, IsActive);
    PermutationKeepsIdsUnique(active, Ordering.SortBy(active, QuestionKey));
  }

  /** ExamParticipant.objects.all(), in Meta order. */
  function ParticipantsByNewest(ps: seq<Participant>): (r: seq<Participant>)
    ensures multiset(r) == multiset(ps)
    ensures forall i, j :: 0 <= i < j < |r| ==> r[i].createdAt >= r[j].createdAt
  {
    var r := Ordering.SortBy(ps, ParticipantKey);
    assert forall i, j :: 0 <= i < j < |r| ==> r[i].createdAt >= r[j].createdAt by {
      forall i, j | 0 <= i < j < |r|
        ensures r[i].createdAt >= r[j].createdAt
      {
        assert Ordering.KeyLe(ParticipantKey(r[i]), ParticipantKey(r[j]));
      }
    }
    r
  }

  lemma {:induction false} FilterKeepsIdsUnique(qs: seq<Question>, p: Question -> bool)
    requires QuestionIdsUnique(qs)
    ensures QuestionIdsUnique(Ordering.Filter(qs, p))
  {
    if |qs| > 0 {
      FilterKeepsIdsUnique(qs[1..], p);
      var rest := Ordering.Filter(qs[1..], p);
      forall k | 0 <= k < |rest|
        ensures rest[k].id != qs[0].id
      {
        assert rest[k] in qs[1..];
      }
    }
  }

  /** Reordering rows with distinct ids keeps them distinct. */
  lemma PermutationKeepsIdsUnique(qs: seq<Question>, r: seq<Question>)
    requires QuestionIdsUnique(qs) && multiset(r) == multiset(qs)
    ensures QuestionIdsUnique(r)
  {
    forall i, j | 0 <= i < j < |r|
      ensures r[i].id != r[j].id
    {
      if r[i].id == r[j].id {
        assert r[i] in multiset(qs) && r[j] in multiset(qs);
        var a :| 0 <= a < |qs| && qs[a] == r[i];
        var b :| 0 <= b < |qs| && qs[b] == r[j];
        assert a == b;
        CountTwo(r, i, j);
        CountOne(qs, a);
        assert false;
      }
    }
  }

  lemma CountTwo<T>(s: seq<T>, i: int, j: int)
    requires 0 <= i < j < |s| && s[i] == s[j]
    ensures multiset(s)[s[i]] >= 2
  {
    assert s == s[..i] + [s[i]] + s[i + 1..j] + [s[j]] + s[j + 1..];
  }

  lemma CountOne(qs: seq<Question>, a: int)
    requires QuestionIdsUnique(qs) && 0 <= a < |qs|
    ensures multiset(qs)[qs[a]] == 1
  {
    assert qs == qs[..a] + [qs[a]] + qs[a + 1..];
    assert forall k :: 0 <= k < |qs| && k != a ==> qs[k] != qs[a];
    assert qs[a] !in qs[..a];
    assert qs[a] !in qs[a + 1..];
  }

  /**
   * The exam tables.  Valid() holds the database constraints declared on the
   * models: a unique phone per participant, primary keys, and one submission
   * per (participant, question) pair.
   */
  class ExamDatabase {
    var participants: seq<Participant>
    var questions: seq<Question>
    var submissions: seq<Submission>
    var nextParticipantId: nat

    ghost predicate Valid()
      reads this
    {
      && PhonesUnique(participants)
      && ParticipantIdsUnique(participants)
      && nextParticipantId > 0
      && IdsBelow(participants, nextParticipantId)
      && QuestionIdsUnique(questions)
      && SubmissionPairsUnique(submissions)
    }

    /** An empty participant table over a fixed question bank. */
    constructor(questionBank: seq<Question>)
      requires QuestionIdsUnique(questionBank)
      ensures Valid()
      ensures participants == [] && submissions == [] && questions == questionBank
    {
      participants := [];
      questions := questionBank;
      submissions := [];
      nextParticipantId := 1;
    }
  }

  /** Rewriting a row's non-key fields keeps the table's keys valid. */
  lemma ReplaceKeepsKeys(ps: seq<Participant>, i: nat, q: Participant, nextId: nat)
    requires i < |ps| && q.id == ps[i].id && q.phone == ps[i].phone
    requires PhonesUnique(ps) && ParticipantIdsUnique(ps)
    requires IdsBelow(ps, nextId)
    ensures PhonesUnique(ps[i := q]) && ParticipantIdsUnique(ps[i := q]) && IdsBelow(ps[i := q], nextId)
  {
    var r := ps[i := q];
    assert forall k :: 0 <= k < |r| ==> r[k].id == ps[k].id && r[k].phone == ps[k].phone;
  }

  /** The row with primary key id, as get_object_or_404(pk=id) finds it. */
  function FindById(ps: seq<Participant>, id: int): (r: Option<nat>)
    ensures r.Some? ==> r.value < |ps| && ps[r.value].id == id
    ensures r.None? ==> forall i :: 0 <= i < |ps| ==> ps[i].id != id
  {
    if |ps| == 0 then None
    else if ps[|ps| - 1].id == id then Some(|ps| - 1)
    else FindById(ps[..|ps| - 1], id)
  }

  /** The row whose phone is phone, as get(phone=phone) finds it. */
  function FindByPhone(ps: seq<Participant>, phone: string): (r: Option<nat>)
    ensures r.Some? ==> r.value < |ps| && ps[r.value].phone == phone
    ensures r.None? ==> forall i :: 0 <= i < |ps| ==> ps[i].phone != phone
  {
    if |ps| == 0 then None
    else if ps[|ps| - 1].phone == phone then Some(|ps| - 1)
    else FindByPhone(ps[..|ps| - 1], phone)
  }
}
