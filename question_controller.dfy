/**
 * `useResearchQuestionController`: the question form of the research page, an instance of the shared
 * form state machine with its own messages.
 */
module QuestionController {
  import opened Wrappers
  import opened JsString
  import F = FormController

  const Required := "Question is required"
  const TooShort := "Question must be at least 10 characters"
  const TooLong := "Question must be at most 1000 characters"
  const Failed := "Failed to start research session"

  const QuestionMessages := F.Messages(Required, TooShort, TooLong, Failed)

  /** `validateQuestion`. */
  function ValidateQuestion(value: string): (r: Option<string>)
    ensures r.None? <==> Trim(value) != [] && 10 <= Length(value) <= 1000
    ensures Trim(value) == [] ==> r == Some(Required)
    ensures Trim(value) != [] && Length(value) < 10 ==> r == Some(TooShort)
    ensures Trim(value) != [] && Length(value) > 1000 ==> r == Some(TooLong)
  {
    F.Validate(QuestionMessages, value)
  }

  /** Blank text is refused as missing even though it is also too short. */
  lemma RequiredBeforeLength(value: string)
    requires forall i :: 0 <= i < |value| ==> IsWhiteSpace(value[i])
    ensures ValidateQuestion(value) == Some(Required)
    ensures Length(value) < 10 ==> ValidateQuestion(value) != Some(TooShort)
  {
  }

  /** The hook's initial state: empty text, no error, not submitting, nothing sent. */
  method NewQuestionController(onSubmit: bool) returns (form: F.Form)
    ensures fresh(form) && form.Valid()
    ensures form.messages == QuestionMessages && form.notify == onSubmit
    ensures form.text == "" && form.error.None? && !form.isSubmitting
    ensures form.requests == [] && form.notified == []
  {
    form := new F.Form(QuestionMessages, onSubmit);
  }
}
