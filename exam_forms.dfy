/**
 * The exam entry form (name, phone, e-mail; one participant per phone) and
 * the quiz form (one required buy/sell field per question).
 */
module ExamForms {
  import opened Wrappers
  import opened Text
  import opened ExamModels

  /** ExamEntryForm.clean_phone: the stripped phone, or a validation error when nothing is left. */
  function CleanPhone(raw: string): (r: Option<string>)
    ensures r.Some? <==> Trim(raw) != ""
    ensures r.Some? ==> IsTrimmed(r.value) && r.value != ""
  {
    TrimSpec(raw);
    var phone := Trim(raw);
    if phone == "" then None else Some(phone)
  }

  /** Cleaning an accepted phone again gives the same phone. */
  lemma CleanPhoneIdempotent(raw: string)
    requires CleanPhone(raw).Some?
    ensures CleanPhone(CleanPhone(raw).value) == CleanPhone(raw)
  {
    TrimIdempotent(raw);
  }

  /**
   * ExamEntryForm.save: get_or_create by phone.  An existing participant gets
   * the submitted name and e-mail, keeps created_at, and gets last_result_at
   * set to now if it was empty; otherwise a new participant is created.
   */
  method SaveEntry(db: ExamDatabase, name: string, phone: string, email: Option<string>, now: int)
    returns (p: Participant)
    requires db.Valid()
    modifies db
    ensures db.Valid()
    ensures db.questions == old(db.questions) && db.submissions == old(db.submissions)
    ensures match FindByPhone(old(db.participants), phone)
      case Some(i) =>
        var before := old(db.participants)[i];
        && p == before.(name := name, email := email,
                        lastResultAt := if before.lastResultAt.Some? then before.lastResultAt else Some(now))
        && db.participants == old(db.participants)[i := p]
        && db.nextParticipantId == old(db.nextParticipantId)
      case None =>
        && p == NewParticipant(old(db.nextParticipantId), name, phone, email, now)
        && db.participants == old(db.participants) + [p]
        && db.nextParticipantId == old(db.nextParticipantId) + 1
    ensures p.phone == phone && p.name == name && p.email == email
    ensures p in db.participants
    ensures forall i :: 0 <= i < |db.participants| && db.participants[i].phone == phone ==> db.participants[i] == p
  {
    var found := FindByPhone(db.participants, phone);
    match found
    case Some(i) =>
      var before := db.participants[i];
      p := before.(name := name, email := email,
                   lastResultAt := if before.lastResultAt.Some? then before.lastResultAt else Some(now));
      db.participants := db.participants[i := p];
      assert db.participants[i] == p;
    case None =>
      p := NewParticipant(db.nextParticipantId, name, phone, email, now);
      assert forall k :: 0 <= k < |db.participants| ==> db.participants[k].id != p.id;
      db.participants := db.participants + [p];
      db.nextParticipantId := db.nextParticipantId + 1;
      assert db.participants[|db.participants| - 1] == p;
  }

  /** f'question_{question.id}'. */
  function FieldName(questionId: nat): string
  {
    "question_" + NatToString(questionId)
  }

  lemma FieldNameInjective(a: nat, b: nat)
    requires FieldName(a) == FieldName(b)
    ensures a == b
  {
    assert FieldName(a)[9..] == NatToString(a);
    assert FieldName(b)[9..] == NatToString(b);
    NatToStringInjective(a, b);
  }

  /** A ChoiceField of the quiz form. */
  datatype FormField = FormField(name: string, caption: string, choices: seq<Answer>, required: bool)

  /** ExamForm.__init__: one required buy/sell field per question, in question order. */
  function ExamFormFields(questions: seq<Question>): (fields: seq<FormField>)
    ensures |fields| == |questions|
  {
    seq(|questions|, i requires 0 <= i < |questions| =>
      FormField(FieldName(questions[i].id), questions[i].title, [Buy, Sell], true))
  }

  /** Distinct questions get distinct field names, so no field overwrites another. */
  lemma ExamFormHasOneFieldPerQuestion(questions: seq<Question>)
    requires QuestionIdsUnique(questions)
    ensures forall i, j :: 0 <= i < j < |questions| ==> ExamFormFields(questions)[i].name != ExamFormFields(questions)[j].name
    ensures forall i :: 0 <= i < |questions| ==>
      ExamFormFields(questions)[i].required && ExamFormFields(questions)[i].choices == [Buy, Sell]
  {
    var fields := ExamFormFields(questions);
    forall i, j | 0 <= i < j < |questions|
      ensures fields[i].name != fields[j].name
    {
      if fields[i].name == fields[j].name {
        FieldNameInjective(questions[i].id, questions[j].id);
      }
    }
  }

  /** ExamForm.is_valid(): every field is present and holds one of the two choices. */
  predicate ExamFormIsValid(questions: seq<Question>, post: map<string, string>)
  {
    forall i :: 0 <= i < |questions| ==>
      FieldName(questions[i].id) in post && ParseAnswer(post[FieldName(questions[i].id)]).Some?
  }

  /** form.cleaned_data.get(f'question_{question.id}') of a valid quiz form. */
  function SelectedAnswer(q: Question, post: map<string, string>): (a: Answer)
    requires FieldName(q.id) in post && ParseAnswer(post[FieldName(q.id)]).Some?
    ensures AnswerValue(a) == post[FieldName(q.id)]
  {
    ParseAnswer(post[FieldName(q.id)]).value
  }

  /**
   * Django's ModelForm validation of the entry form as the code declares it:
   * CharField strips name and phone, clean_phone rejects an empty phone, the
   * model's max_length applies, and validate_unique rejects a phone that is
   * already stored, because phone is declared unique.
   */
  predicate EntryFormValidAsWritten(ps: seq<Participant>, name: string, rawPhone: string, emailValid: bool)
  {
    && Trim(name) != "" && |Trim(name)| <= 200
    && CleanPhone(rawPhone).Some? && |CleanPhone(rawPhone).value| <= 20
    && emailValid
    && FindByPhone(ps, CleanPhone(rawPhone).value).None?
  }

  /** As written, a returning participant can never pass the entry form, so save's update branch is unreachable. */
  lemma ReturningParticipantRejected(ps: seq<Participant>, name: string, rawPhone: string, emailValid: bool)
    requires CleanPhone(rawPhone).Some?
    requires exists i :: 0 <= i < |ps| && ps[i].phone == CleanPhone(rawPhone).value
    ensures !EntryFormValidAsWritten(ps, name, rawPhone, emailValid)
  {
  }

  /** A concrete returning participant: the second visit with the same phone is refused. */
  lemma ReturningParticipantExample()
    ensures !EntryFormValidAsWritten([NewParticipant(1, "Sara", "0599123456", None, 0)], "Sara", "0599123456", true)
  {
    var raw := "0599123456";
    assert TrimStart(raw) == raw;
    assert TrimEnd(raw) == raw;
    var ps := [NewParticipant(1, "Sara", raw, None, 0)];
    assert ps[0].phone == CleanPhone(raw).value;
    ReturningParticipantRejected(ps, "Sara", raw, true);
  }

  /**
   * The entry form as save() evidently intends it: the same field checks, with
   * the phone's uniqueness left to save(), which updates the existing row.
   */
  predicate EntryFormValid(name: string, rawPhone: string, emailValid: bool)
  {
    && Trim(name) != "" && |Trim(name)| <= 200
    && CleanPhone(rawPhone).Some? && |CleanPhone(rawPhone).value| <= 20
    && emailValid
  }

  /**
   * exam_entry_view on POST with the intended validation: a valid form is
   * saved and the participant's id is returned for the session.
   */
  method EnterExam(db: ExamDatabase, name: string, rawPhone: string, email: Option<string>, emailValid: bool, now: int)
    returns (sessionId: Option<nat>)
    requires db.Valid()
    modifies db
    ensures db.Valid()
    ensures sessionId.Some? <==> EntryFormValid(name, rawPhone, emailValid)
    ensures !EntryFormValid(name, rawPhone, emailValid) ==> unchanged(db)
    ensures sessionId.Some? ==>
      var phone := CleanPhone(rawPhone).value;
      && (exists i :: 0 <= i < |db.participants| && db.participants[i].id == sessionId.value
                      && db.participants[i].phone == phone && db.participants[i].name == Trim(name))
      && |db.participants| == |old(db.participants)| + (if FindByPhone(old(db.participants), phone).Some? then 0 else 1)
  {
    if !EntryFormValid(name, rawPhone, emailValid) {
      return None;
    }
    var phone := CleanPhone(rawPhone).value;
    var p := SaveEntry(db, Trim(name), phone, email, now);
    sessionId := Some(p.id);
  }
}
